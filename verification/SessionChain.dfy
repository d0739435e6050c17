/** Sessions and the chain of parents above one. */
module SessionChain {
  import opened Basics

  datatype Session = Session(id: string, parentId: Option<string>, isSubagent: bool, updatedAt: int)

  type Index = map<string, Session>

  /** Only a subagent has a parent, and an empty id names none. */
  function ParentOf(s: Session): (p: Option<string>)
    ensures p.Some? ==> p.value != ""
  {
    if s.isSubagent && s.parentId.Some? && s.parentId.value != "" then s.parentId else None
  }

  function Up(index: Index, id: string): Option<string> {
    if id in index then ParentOf(index[id]) else None
  }

  /** The `n`th ancestor; an id without a session may be the last. */
  function Climb(index: Index, id: string, n: nat): Option<string> {
    if n == 0 then Some(id)
    else match Climb(index, id, n - 1)
      case None => None
      case Some(x) => Up(index, x)
  }

  ghost predicate Terminates(index: Index, id: string) {
    exists n: nat :: Climb(index, id, n) == None
  }

  lemma {:induction false} ClimbFrom(index: Index, id: string, n: nat, m: nat)
    requires Climb(index, id, n).Some?
    ensures Climb(index, id, n + m) == Climb(index, Climb(index, id, n).value, m)
  {
    if m > 0 {
      ClimbFrom(index, id, n, m - 1);
    }
  }

  lemma {:induction false} ClimbOnceEnded(index: Index, id: string, n: nat, m: nat)
    requires n <= m && Climb(index, id, n) == None
    ensures Climb(index, id, m) == None
  {
    if n < m {
      ClimbOnceEnded(index, id, n, m - 1);
    }
  }

  /** A chain that comes back to where it was never ends. */
  lemma {:induction false} ReturningNeverEnds(index: Index, id: string, i: nat, j: nat, n: nat)
    requires i < j && Climb(index, id, i).Some? && Climb(index, id, i) == Climb(index, id, j)
    ensures Climb(index, id, n).Some?
    decreases n
  {
    if n <= j {
      if Climb(index, id, n) == None {
        ClimbOnceEnded(index, id, n, j);
      }
    } else {
      ClimbFrom(index, id, j, n - j);
      ClimbFrom(index, id, i, n - j);
      ReturningNeverEnds(index, id, i, j, i + (n - j));
    }
  }

  /** The chain above a session ends exactly when the one above its parent does. */
  lemma TerminatesWithParent(index: Index, id: string)
    requires Up(index, id).Some?
    ensures Terminates(index, id) <==> Terminates(index, Up(index, id).value)
  {
    var p := Up(index, id).value;
    assert Climb(index, id, 0) == Some(id);
    assert Climb(index, id, 1) == Some(p);
    if n: nat :| Climb(index, id, n) == None {
      assert n > 1;
      ClimbFrom(index, id, 1, n - 1);
    }
    if n: nat :| Climb(index, p, n) == None {
      ClimbFrom(index, id, 1, n);
      assert Climb(index, id, 1 + n) == None;
    }
  }

  // ---------- Chains, written out ----------

  /** The session with this id is a subagent of that parent. */
  predicate IsChildOf(index: Index, id: string, parentId: string) {
    id in index && index[id].isSubagent && index[id].parentId == Some(parentId) && parentId != ""
  }

  /** The ids from this one up, each a subagent of the next, to one that is no subagent of any. */
  ghost predicate IsChainToTheTop(index: Index, id: string, chain: seq<string>) {
    && chain != [] && chain[0] == id
    && (forall k :: 0 <= k < |chain| - 1 ==> IsChildOf(index, chain[k], chain[k + 1]))
    && IsOnTop(index, chain[|chain| - 1])
  }

  ghost predicate IsOnTop(index: Index, id: string) {
    forall p :: !IsChildOf(index, id, p)
  }

  lemma UpIsTheParent(index: Index, id: string)
    ensures forall p :: Up(index, id) == Some(p) <==> IsChildOf(index, id, p)
  {
  }

  lemma {:induction false} ChainUpTo(index: Index, id: string, n: nat) returns (chain: seq<string>)
    requires Climb(index, id, n).Some? && Climb(index, id, n + 1) == None
    ensures IsChainToTheTop(index, id, chain)
  {
    chain := [id];
    var k := 0;
    UpIsTheParent(index, id);
    while k < n
      invariant k <= n && |chain| == k + 1 && chain[0] == id && Climb(index, id, k) == Some(chain[k])
      invariant forall j :: 0 <= j < k ==> IsChildOf(index, chain[j], chain[j + 1])
    {
      if Climb(index, id, k + 1) == None {
        ClimbOnceEnded(index, id, k + 1, n);
      }
      UpIsTheParent(index, chain[k]);
      chain := chain + [Climb(index, id, k + 1).value];
      k := k + 1;
    }
    UpIsTheParent(index, chain[n]);
  }

  lemma {:induction false} LastClimb(index: Index, id: string, n: nat) returns (m: nat)
    requires Climb(index, id, n) == None
    ensures Climb(index, id, m).Some? && Climb(index, id, m + 1) == None
  {
    if n == 1 || Climb(index, id, n - 1).Some? {
      m := n - 1;
    } else {
      m := LastClimb(index, id, n - 1);
    }
  }

  lemma {:induction false} ChainIsClimbed(index: Index, id: string, chain: seq<string>, k: nat)
    requires IsChainToTheTop(index, id, chain) && k < |chain|
    ensures Climb(index, id, k) == Some(chain[k])
  {
    if k > 0 {
      ChainIsClimbed(index, id, chain, k - 1);
      UpIsTheParent(index, chain[k - 1]);
      assert IsChildOf(index, chain[k - 1], chain[k - 1 + 1]);
    }
  }

  /** The chain above a session ends exactly when it can be written out. */
  lemma TerminatesIff(index: Index, id: string)
    ensures Terminates(index, id) <==> exists chain :: IsChainToTheTop(index, id, chain)
  {
    if Terminates(index, id) {
      var n: nat :| Climb(index, id, n) == None;
      var m := LastClimb(index, id, n);
      var chain := ChainUpTo(index, id, m);
    }
    if chain :| IsChainToTheTop(index, id, chain) {
      var last := |chain| - 1;
      ChainIsClimbed(index, id, chain, last);
      UpIsTheParent(index, chain[last]);
      assert Climb(index, id, last + 1) == None;
    }
  }
}
