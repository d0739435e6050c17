/** Which project a session belongs to: the first attribution on its chain of parents, found with a memo. */
module ProjectScope {
  import opened Basics
  import opened SessionChain

  const PERSONAL_PROJECT_ID := "personal"

  /** The last session with each id. */
  function ByIdOf(sessions: seq<Session>): Index {
    if sessions == [] then map[]
    else ByIdOf(sessions[..|sessions| - 1])[sessions[|sessions| - 1].id := sessions[|sessions| - 1]]
  }

  /** Of sessions with the same id the last one counts. */
  lemma {:induction false} LastSessionCounts(sessions: seq<Session>, i: nat)
    requires i < |sessions| && forall j :: i < j < |sessions| ==> sessions[j].id != sessions[i].id
    ensures sessions[i].id in ByIdOf(sessions) && ByIdOf(sessions)[sessions[i].id] == sessions[i]
  {
    if i < |sessions| - 1 {
      LastSessionCounts(sessions[..|sessions| - 1], i);
    }
  }

  type Projects = map<string, string>

  /** The `n`th ancestor has an attribution of its own. */
  ghost predicate AttributedAt(index: Index, direct: Projects, id: string, n: nat) {
    Climb(index, id, n).Some? && Climb(index, id, n).value in direct
  }

  ghost predicate FirstAttributedAt(index: Index, direct: Projects, id: string, n: nat) {
    AttributedAt(index, direct, id, n) && forall m: nat :: m < n ==> !AttributedAt(index, direct, id, m)
  }

  /** `r` is the first direct attribution on the chain above `id`, or nothing when there is none. */
  ghost predicate IsProjectOf(index: Index, direct: Projects, id: string, r: Option<string>) {
    match r
    case None => forall n: nat :: !AttributedAt(index, direct, id, n)
    case Some(p) => exists n: nat :: FirstAttributedAt(index, direct, id, n) && direct[Climb(index, id, n).value] == p
  }

  lemma ProjectIsUnique(index: Index, direct: Projects, id: string, r: Option<string>, q: Option<string>)
    requires IsProjectOf(index, direct, id, r) && IsProjectOf(index, direct, id, q)
    ensures r == q
  {
    if r.Some? && q.Some? {
      var n: nat :| FirstAttributedAt(index, direct, id, n) && direct[Climb(index, id, n).value] == r.value;
      var m: nat :| FirstAttributedAt(index, direct, id, m) && direct[Climb(index, id, m).value] == q.value;
      assert n == m;
    }
  }

  lemma OwnProject(index: Index, direct: Projects, id: string)
    requires id in direct
    ensures IsProjectOf(index, direct, id, Some(direct[id]))
  {
    assert FirstAttributedAt(index, direct, id, 0);
  }

  lemma NoParentNoProject(index: Index, direct: Projects, id: string)
    requires id !in direct && Up(index, id) == None
    ensures IsProjectOf(index, direct, id, None)
  {
    forall n: nat ensures !AttributedAt(index, direct, id, n) {
      if n > 0 {
        assert Climb(index, id, 0) == Some(id);
        ClimbOnceEnded(index, id, 1, n);
      }
    }
  }

  /** Without an attribution of its own a session has its parent's project. */
  lemma InheritsProject(index: Index, direct: Projects, id: string, r: Option<string>)
    requires id !in direct && Up(index, id).Some?
    requires IsProjectOf(index, direct, Up(index, id).value, r)
    ensures IsProjectOf(index, direct, id, r)
  {
    var p := Up(index, id).value;
    assert Climb(index, id, 0) == Some(id);
    assert Climb(index, id, 1) == Some(p);
    forall n: nat ensures AttributedAt(index, direct, id, n + 1) <==> AttributedAt(index, direct, p, n) {
      ClimbFrom(index, id, 1, n);
    }
    match r
    case None =>
      forall n: nat ensures !AttributedAt(index, direct, id, n) {
        if n > 0 {
          assert !AttributedAt(index, direct, p, n - 1);
          assert AttributedAt(index, direct, id, (n - 1) + 1) <==> AttributedAt(index, direct, p, n - 1);
        }
      }
    case Some(project) =>
      var n: nat :| FirstAttributedAt(index, direct, p, n) && direct[Climb(index, p, n).value] == project;
      ClimbFrom(index, id, 1, n);
      forall m: nat | m < n + 1 ensures !AttributedAt(index, direct, id, m) {
        if m > 0 {
          assert AttributedAt(index, direct, id, (m - 1) + 1) <==> AttributedAt(index, direct, p, m - 1);
        }
      }
      assert FirstAttributedAt(index, direct, id, n + 1);
  }

  /** The ids on the way to `id`: each the parent of the one before, none attributed. */
  ghost predicate IsTrail(index: Index, direct: Projects, path: seq<string>, id: string) {
    && (forall k :: 0 <= k < |path| ==> path[k] !in direct)
    && (forall k :: 0 <= k < |path| - 1 ==> Up(index, path[k]) == Some(path[k + 1]))
    && (path != [] ==> Up(index, path[|path| - 1]) == Some(id))
  }

  lemma {:induction false} LoopStaysOnTrail(index: Index, direct: Projects, path: seq<string>, id: string, n: nat)
    requires IsTrail(index, direct, path, id) && id in path
    ensures Climb(index, id, n).Some? && Climb(index, id, n).value in path
  {
    if n > 0 {
      LoopStaysOnTrail(index, direct, path, id, n - 1);
      var k :| 0 <= k < |path| && path[k] == Climb(index, id, n - 1).value;
      assert Up(index, path[k]) == Some(if k == |path| - 1 then id else path[k + 1]);
    }
  }

  /** A walk that returns to its own trail finds no attribution. */
  lemma LoopHasNoProject(index: Index, direct: Projects, path: seq<string>, id: string)
    requires IsTrail(index, direct, path, id) && id in path
    ensures IsProjectOf(index, direct, id, None)
  {
    forall n: nat ensures !AttributedAt(index, direct, id, n) {
      LoopStaysOnTrail(index, direct, path, id, n);
    }
  }

  class Resolver {
    const byId: Index
    const direct: Projects
    var resolved: map<string, Option<string>>

    constructor (byId: Index, direct: Projects)
      ensures this.byId == byId && this.direct == direct && resolved == map[]
    {
      this.byId, this.direct := byId, direct;
      resolved := map[];
    }

    /** Whatever has been remembered is right, even what was remembered while walking a cycle. */
    ghost predicate Valid()
      reads this
    {
      forall id :: id in resolved ==> IsProjectOf(byId, direct, id, resolved[id])
    }

    method ProjectFor(id: string, trail: set<string>, ghost path: seq<string>) returns (project: Option<string>)
      requires Valid()
      requires IsTrail(byId, direct, path, id) && forall x :: x in trail <==> x in path
      modifies this
      ensures Valid() && IsProjectOf(byId, direct, id, project)
      ensures old(resolved).Keys <= resolved.Keys
      ensures id !in trail ==> id in resolved
      decreases byId.Keys - trail
    {
      if id in resolved {
        return resolved[id];
      }
      if id in direct {
        OwnProject(byId, direct, id);
        resolved := resolved[id := Some(direct[id])];
        return Some(direct[id]);
      }
      if id in trail {
        LoopHasNoProject(byId, direct, path, id);
        return None;
      }
      var parentId := if id in byId then ParentOf(byId[id]) else None;
      if parentId.None? {
        NoParentNoProject(byId, direct, id);
        resolved := resolved[id := None];
        return None;
      }
      project := ProjectFor(parentId.value, trail + {id}, path + [id]);
      InheritsProject(byId, direct, id, project);
      resolved := resolved[id := project];
    }
  }

  method IndexById(sessions: seq<Session>) returns (byId: Index)
    ensures byId == ByIdOf(sessions)
  {
    byId := map[];
    for i := 0 to |sessions|
      invariant byId == ByIdOf(sessions[..i])
    {
      assert sessions[..i + 1][..i] == sessions[..i];
      byId := byId[sessions[i].id := sessions[i]];
    }
    assert sessions[..|sessions|] == sessions;
  }

  /** Every session given is resolved, and each to its project. */
  method ResolveSessionProjectIds(sessions: seq<Session>, direct: Projects)
    returns (resolved: map<string, Option<string>>)
    ensures forall i :: 0 <= i < |sessions| ==> sessions[i].id in resolved
    ensures forall id :: id in resolved ==> IsProjectOf(ByIdOf(sessions), direct, id, resolved[id])
  {
    var byId := IndexById(sessions);
    var resolver := new Resolver(byId, direct);
    for i := 0 to |sessions|
      invariant resolver.Valid()
      invariant forall k :: 0 <= k < i ==> sessions[k].id in resolver.resolved
    {
      var project := resolver.ProjectFor(sessions[i].id, {}, []);
    }
    resolved := resolver.resolved;
  }

  // ---------- The scope filter ----------

  /** Personal also shows what belongs to no project. */
  predicate IsShown(project: Option<string>, active: string) {
    project == Some(active) || (active == PERSONAL_PROJECT_ID && project == None)
  }

  ghost predicate IsInScope(index: Index, direct: Projects, active: string, id: string) {
    exists project :: IsProjectOf(index, direct, id, project) && IsShown(project, active)
  }

  ghost function InScope(index: Index, direct: Projects, active: string, sessions: seq<Session>): seq<Session> {
    if sessions == [] then []
    else
      var s := sessions[|sessions| - 1];
      InScope(index, direct, active, sessions[..|sessions| - 1])
      + if IsInScope(index, direct, active, s.id) then [s] else []
  }

  /** With no active project everything is kept; otherwise the sessions in scope, in their order. */
  method FilterSessionsInProjectScope(sessions: seq<Session>, active: string, direct: Projects)
    returns (kept: seq<Session>)
    ensures kept == if active == "" then sessions else InScope(ByIdOf(sessions), direct, active, sessions)
  {
    if active == "" {
      return sessions;
    }
    var resolved := ResolveSessionProjectIds(sessions, direct);
    ghost var index := ByIdOf(sessions);
    kept := [];
    for i := 0 to |sessions|
      invariant kept == InScope(index, direct, active, sessions[..i])
    {
      assert sessions[..i + 1][..i] == sessions[..i];
      var s := sessions[i];
      ShownIffInScope(index, direct, active, s.id, resolved[s.id]);
      if IsShown(resolved[s.id], active) {
        kept := kept + [s];
      }
    }
    assert sessions[..|sessions|] == sessions;
  }

  lemma ShownIffInScope(index: Index, direct: Projects, active: string, id: string, project: Option<string>)
    requires IsProjectOf(index, direct, id, project)
    ensures IsInScope(index, direct, active, id) <==> IsShown(project, active)
  {
    if IsInScope(index, direct, active, id) {
      var other :| IsProjectOf(index, direct, id, other) && IsShown(other, active);
      ProjectIsUnique(index, direct, id, project, other);
    }
  }

  lemma {:induction false} InScopeAreThose(index: Index, direct: Projects, active: string, sessions: seq<Session>,
                                           s: Session)
    ensures multiset(InScope(index, direct, active, sessions))[s]
            == if IsInScope(index, direct, active, s.id) then multiset(sessions)[s] else 0
  {
    if sessions != [] {
      var before, last := sessions[..|sessions| - 1], sessions[|sessions| - 1];
      InScopeAreThose(index, direct, active, before, s);
      assert sessions == before + [last];
    }
  }

  /** Personal shows what is Personal's or nobody's, any other project only its own. */
  lemma EachProjectShowsItsOwn(index: Index, direct: Projects, active: string, sessions: seq<Session>, s: Session,
                               project: Option<string>)
    requires IsProjectOf(index, direct, s.id, project)
    ensures multiset(InScope(index, direct, active, sessions))[s]
            == if project == Some(active) || (active == "personal" && project == None) then multiset(sessions)[s] else 0
  {
    InScopeAreThose(index, direct, active, sessions, s);
    ShownIffInScope(index, direct, active, s.id, project);
  }

  /** And in the order in which they are listed. */
  lemma {:induction false} ScopeKeepsTheOrder(index: Index, direct: Projects, active: string, sessions: seq<Session>)
    ensures KeepsOrder(InScope(index, direct, active, sessions), sessions)
  {
    if sessions == [] {
      assert AreFoundAt(InScope(index, direct, active, sessions), sessions, []);
    } else {
      var before, s := sessions[..|sessions| - 1], sessions[|sessions| - 1];
      ScopeKeepsTheOrder(index, direct, active, before);
      OneMoreKeepsOrder(InScope(index, direct, active, before), before, s, IsInScope(index, direct, active, s.id));
      assert sessions == before + [s];
    }
  }

  // ---------- What the memo cannot change ----------

  ghost predicate UniqueIds(sessions: seq<Session>) {
    forall i, j :: 0 <= i < j < |sessions| ==> sessions[i].id != sessions[j].id
  }

  lemma {:induction false} UniqueSessionsIndexThemselves(sessions: seq<Session>)
    requires UniqueIds(sessions)
    ensures forall i :: 0 <= i < |sessions| ==>
              sessions[i].id in ByIdOf(sessions) && ByIdOf(sessions)[sessions[i].id] == sessions[i]
    ensures forall id :: id in ByIdOf(sessions) ==> exists i :: 0 <= i < |sessions| && sessions[i].id == id
  {
    if sessions != [] {
      UniqueSessionsIndexThemselves(sessions[..|sessions| - 1]);
    }
  }

  /** The order in which sessions are listed does not matter. */
  lemma OrderDoesNotMatter(sessions: seq<Session>, shuffled: seq<Session>, direct: Projects, id: string,
                           r: Option<string>, q: Option<string>)
    requires UniqueIds(sessions) && UniqueIds(shuffled)
    requires forall s :: s in sessions <==> s in shuffled
    requires IsProjectOf(ByIdOf(sessions), direct, id, r) && IsProjectOf(ByIdOf(shuffled), direct, id, q)
    ensures r == q
  {
    var a, b := ByIdOf(sessions), ByIdOf(shuffled);
    UniqueSessionsIndexThemselves(sessions);
    UniqueSessionsIndexThemselves(shuffled);
    forall x | x in a ensures x in b && b[x] == a[x] {
      var i :| 0 <= i < |sessions| && sessions[i].id == x;
      assert sessions[i] in shuffled;
    }
    forall x | x in b ensures x in a {
      var i :| 0 <= i < |shuffled| && shuffled[i].id == x;
      assert shuffled[i] in sessions;
    }
    assert a == b;
    ProjectIsUnique(a, direct, id, r, q);
  }

  /** What decides a session's project: its own attribution; without one the project of the parent it is a subagent of;
      and with neither it has none. */
  lemma ProjectByRule(index: Index, direct: Projects, id: string, parentId: string, r: Option<string>,
                      q: Option<string>)
    requires IsProjectOf(index, direct, id, r) && IsProjectOf(index, direct, parentId, q)
    ensures id in direct ==> r == Some(direct[id])
    ensures id !in direct && IsChildOf(index, id, parentId) ==> r == q
    ensures id !in direct && IsOnTop(index, id) ==> r == None
  {
    UpIsTheParent(index, id);
    if id in direct {
      OwnProject(index, direct, id);
      ProjectIsUnique(index, direct, id, r, Some(direct[id]));
    } else if Up(index, id) == None {
      NoParentNoProject(index, direct, id);
      ProjectIsUnique(index, direct, id, r, None);
    } else if Up(index, id) == Some(parentId) {
      ChildSharesParentsProject(index, direct, id, r, q);
    }
  }

  /** A subagent without an attribution of its own is in its parent's project. */
  lemma ChildSharesParentsProject(index: Index, direct: Projects, childId: string, r: Option<string>, q: Option<string>)
    requires childId !in direct && Up(index, childId).Some?
    requires IsProjectOf(index, direct, childId, r) && IsProjectOf(index, direct, Up(index, childId).value, q)
    ensures r == q
  {
    InheritsProject(index, direct, childId, q);
    ProjectIsUnique(index, direct, childId, r, q);
  }

  /** So it is shown exactly where its parent is. */
  lemma ChildIsShownWithParent(index: Index, direct: Projects, childId: string, active: string, q: Option<string>)
    requires childId !in direct && Up(index, childId).Some?
    requires IsProjectOf(index, direct, Up(index, childId).value, q)
    ensures IsInScope(index, direct, active, childId) <==> IsInScope(index, direct, active, Up(index, childId).value)
  {
    InheritsProject(index, direct, childId, q);
    ShownIffInScope(index, direct, active, childId, q);
    ShownIffInScope(index, direct, active, Up(index, childId).value, q);
  }
}
