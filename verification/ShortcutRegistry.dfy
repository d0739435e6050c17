/** The owner of ND's system-wide keys: taking, swapping, rolling back and retrying bindings. */
module ShortcutRegistry {
  import opened Accelerator
  import opened Basics
  import opened Shortcuts

  /** A key that was asked for, for which action, and the reason if it was refused. */
  datatype Ask = Ask(id: Id, accelerator: string, refusal: Option<string>)

  /** The operating system's side. It may refuse any key, and refuses one ND already holds. */
  class Gate {
    var owned: set<string>
    ghost var asked: seq<Ask>

    constructor ()
      ensures owned == {} && asked == []
    {
      owned, asked := {}, [];
    }

    method Register(id: Id, accelerator: string) returns (refusal: Option<string>)
      modifies this
      ensures refusal.None? ==> accelerator !in old(owned) && owned == old(owned) + {accelerator}
      ensures refusal.Some? ==> owned == old(owned)
      ensures asked == old(asked) + [Ask(id, accelerator, refusal)]
    {
      var refuses: bool := *;
      if refuses || accelerator in owned {
        var reason: string := *;
        refusal := Some(reason);
      } else {
        owned := owned + {accelerator};
        refusal := None;
      }
      asked := asked + [Ask(id, accelerator, refusal)];
    }

    method Unregister(accelerator: string)
      modifies this`owned
      ensures owned == old(owned) - {accelerator}
    {
      owned := owned - {accelerator};
    }

    method UnregisterAll()
      modifies this`owned
      ensures owned == {}
    {
      owned := {};
    }
  }

  /** Each of these actions, and no other, was asked for once, with the key it is bound to; it is live exactly if that
      was granted, and otherwise the reason was noted. */
  ghost predicate AsksEach(asks: seq<Ask>, ids: set<Id>, bindings: map<Id, string>, live: map<Id, string>,
                           failures: map<Id, string>)
  {
    && (forall i, j :: 0 <= i < j < |asks| ==> asks[i].id != asks[j].id)
    && (forall id :: id in ids <==> exists a <- asks :: a.id == id)
    && (forall a <- asks ::
          && a.id in bindings && a.accelerator == bindings[a.id]
          && (a.refusal.None? <==> a.id in live)
          && (a.refusal.Some? ==> a.id in failures && failures[a.id] == a.refusal.value))
  }

  lemma OneAskMore(asks: seq<Ask>, ids: set<Id>, bindings: map<Id, string>, live: map<Id, string>,
                   failures: map<Id, string>, id: Id, refusal: Option<string>)
    requires AsksEach(asks, ids, bindings, live, failures) && id !in ids && id in bindings && id !in live
    ensures var granted := refusal.None?;
            AsksEach(asks + [Ask(id, bindings[id], refusal)], ids + {id}, bindings,
                     if granted then live[id := bindings[id]] else live,
                     if granted then failures - {id} else failures[id := refusal.value])
  {
    var all := asks + [Ask(id, bindings[id], refusal)];
    assert all[|asks|].id == id;
    forall a <- asks ensures a.id != id && a in all {
      assert a.id in ids;
    }
  }

  /** The persisted bindings. */
  class BindingStore {
    var bindings: map<Id, string>

    ghost predicate Total()
      reads this
    {
      forall id: Id :: id in bindings
    }

    ghost predicate Canonical()
      reads this
    {
      AllCanonical(bindings)
    }

    /** What is stored is the canonical spelling of what was given. */
    method SetGlobalShortcut(id: Id, accelerator: string) returns (ok: bool)
      requires Total() && Canonical()
      modifies this
      ensures Total() && Canonical()
      ensures ok <==> Canon(accelerator).Some?
      ensures bindings == if ok then old(bindings)[id := Canon(accelerator).value] else old(bindings)
    {
      var chord := ParseAccelerator(accelerator);
      ok := chord.Some?;
      if ok {
        CanonIsStable(accelerator);
        bindings := bindings[id := Serialize(chord.value)];
      }
    }
  }

  datatype Rebound = Bound | NotAKey | Conflicting(conflict: Conflict) | Refused(reason: string)

  datatype Request = Invalid | Clash(conflict: Conflict) | Free(target: string)

  function Requested(id: Id, accelerator: Option<string>): string {
    match accelerator
    case Some(a) => a
    case None => Default(id)
  }

  function Judged(requested: string, platform: Platform, taken: map<Id, string>): Request {
    match Parse(requested)
    case None => Invalid
    case Some(chord) =>
      match FindConflict(chord, platform, taken)
      case Some(c) => Clash(c)
      case None => Free(Serialize(chord))
  }

  /** No two actions are bound to the same chord. */
  ghost predicate AreUnshared(bindings: map<Id, string>) {
    forall a, b {:trigger Parse(bindings[a]), Parse(bindings[b])} ::
      a in bindings && b in bindings && Parse(bindings[a]) == Parse(bindings[b]) ==> a == b
  }

  ghost predicate IsOnlyOwner(bindings: map<Id, string>, id: Id)
    requires id in bindings
  {
    forall other :: other in bindings && other != id ==> Parse(bindings[other]) != Parse(bindings[id])
  }

  lemma FreeTarget(requested: string, platform: Platform, taken: map<Id, string>)
    requires AllCanonical(taken) && Judged(requested, platform, taken).Free?
    ensures var target := Judged(requested, platform, taken).target;
            && Canon(target) == Some(target)
            && forall id :: id in taken ==> Parse(taken[id]) != Parse(target)
  {
    var chord := Parse(requested).value;
    CanonIsStable(requested);
    ConflictFreeIff(chord, platform, taken);
  }

  lemma RebindingKeepsUnshared(bindings: map<Id, string>, id: Id, target: string)
    requires forall other :: other in bindings - {id} ==> Parse((bindings - {id})[other]) != Parse(target)
    ensures IsOnlyOwner(bindings[id := target], id)
    ensures AreUnshared(bindings) ==> AreUnshared(bindings[id := target])
  {
    forall other | other in bindings && other != id ensures Parse(bindings[other]) != Parse(target) {
      assert (bindings - {id})[other] == bindings[other];
    }
  }

  /** A key that passes the check is canonical and asks for a chord that no other action is bound to. */
  lemma FreeIsUnshared(requested: string, platform: Platform, bindings: map<Id, string>, id: Id)
    requires AllCanonical(bindings)
    ensures var r := Judged(requested, platform, bindings - {id});
            r.Free? ==>
              && Canon(r.target) == Some(r.target)
              && IsOnlyOwner(bindings[id := r.target], id)
              && (AreUnshared(bindings) ==> AreUnshared(bindings[id := r.target]))
  {
    if Judged(requested, platform, bindings - {id}).Free? {
      FreeTarget(requested, platform, bindings - {id});
      RebindingKeepsUnshared(bindings, id, Judged(requested, platform, bindings - {id}).target);
    }
  }

  ghost function Listed(ids: seq<Id>): set<Id> {
    set id | id in ids
  }

  ghost function AllIds(): set<Id> {
    Listed(IDS)
  }

  lemma OneMorePassed(before: set<Id>, after: set<Id>, had: set<Id>, passed: set<Id>, id: Id)
    requires before - passed == had - passed && after - {id} == before - {id}
    ensures after - (passed + {id}) == had - (passed + {id})
  {
    assert after - (passed + {id}) == (after - {id}) - passed;
    assert had - (passed + {id}) == (before - passed) - {id};
  }

  lemma OneMoreListed(i: nat, without: set<Id>)
    requires i < |IDS|
    ensures IDS[i] !in Listed(IDS[..i]) && Listed(IDS[..i + 1]) == Listed(IDS[..i]) + {IDS[i]}
    ensures Listed(IDS[..i + 1]) - without
            == if IDS[i] in without then Listed(IDS[..i]) - without else Listed(IDS[..i]) - without + {IDS[i]}
  {
    assert IDS[..i + 1] == IDS[..i] + [IDS[i]];
  }

  /** The bindings of these actions but this one. */
  ghost function OthersOf(bindings: map<Id, string>, ids: seq<Id>, id: Id): map<Id, string> {
    map other | other in bindings && other in ids && other != id :: bindings[other]
  }

  lemma OneMoreOther(bindings: map<Id, string>, ids: seq<Id>, i: nat, id: Id)
    requires i < |ids| && ids[i] in bindings
    ensures var before := OthersOf(bindings, ids[..i], id);
            OthersOf(bindings, ids[..i + 1], id) == if ids[i] == id then before else before[ids[i] := bindings[ids[i]]]
  {
    assert ids[..i + 1] == ids[..i] + [ids[i]];
  }

  lemma AllOthers(bindings: map<Id, string>, id: Id)
    ensures OthersOf(bindings, IDS[..|IDS|], id) == bindings - {id}
  {
    assert IDS[..|IDS|] == IDS;
    forall other: Id ensures other in IDS {
      EveryIdIsListed(other);
    }
  }

  /** The new key was asked for once. When it was refused, a key the action held before was asked for again, and the
      action has it exactly if that was granted. */
  ghost predicate SwapAsked(before: seq<Ask>, after: seq<Ask>, id: Id, target: string, failure: Option<string>,
                            had: map<Id, string>, has: map<Id, string>)
  {
    var asked := before + [Ask(id, target, failure)];
    if failure.None? || id !in had then after == asked
    else
      && |after| == |asked| + 1 && asked == after[..|asked|]
      && var again := after[|asked|];
      && again.id == id && again.accelerator == had[id] && (again.refusal.None? <==> id in has)
  }

  lemma PutBack(m: map<Id, string>, id: Id, key: string)
    ensures (m - {id})[id := key] == m[id := key]
    ensures m[id := key] - {id} == m - {id} - {id} == m - {id}
  {
  }

  class Registry {
    const gate: Gate
    const store: BindingStore
    const platform: Platform
    var live: map<Id, string>
    var failures: map<Id, string>
    var pending: set<Id>
    var timerArmed: bool

    /** No two actions hold the same key, and the keys ND holds are those of its live bindings. */
    ghost predicate OwnsItsKeys()
      reads this, gate
    {
      && gate.owned == live.Values
      && forall a, b :: a in live && b in live && live[a] == live[b] ==> a == b
    }

    /** What every operation keeps: live bindings are the stored ones, nothing is live and pending at
        once, each pending binding has a recorded reason and a timer to try it again. */
    ghost predicate Valid()
      reads this, gate, store
    {
      && store.Total()
      && OwnsItsKeys()
      && (forall id :: id in live ==> live[id] == store.bindings[id])
      && live.Keys !! pending
      && pending <= failures.Keys
      && (pending != {} ==> timerArmed)
    }

    /** As `Valid`, but this action's key is not the stored one, or it has none. */
    ghost predicate ValidBut(id: Id)
      reads this, gate, store
    {
      && store.Total()
      && OwnsItsKeys()
      && (forall other :: other in live && other != id ==> live[other] == store.bindings[other])
      && live.Keys !! pending
      && pending <= failures.Keys
      && (pending != {} ==> timerArmed)
    }

    /** Every binding is live or waiting. */
    ghost predicate Synced()
      reads this
    {
      forall id: Id :: id in live || id in pending
    }

    constructor (gate: Gate, store: BindingStore, platform: Platform)
      requires gate.owned == {} && store.Total()
      ensures this.gate == gate && this.store == store && this.platform == platform
      ensures Valid() && live == map[]
    {
      this.gate, this.store, this.platform := gate, store, platform;
      live, failures, pending, timerArmed := map[], map[], {}, false;
    }

    method ScheduleRetry()
      modifies this`timerArmed
      ensures timerArmed == (old(timerArmed) || pending != {})
    {
      if timerArmed || pending == {} {
        return;
      }
      timerArmed := true;
    }

    /** Register a key and record the outcome. */
    method Bind(id: Id, accelerator: string) returns (failure: Option<string>)
      requires OwnsItsKeys() && id !in live
      modifies this`live, this`failures, this`pending, gate
      ensures OwnsItsKeys()
      ensures failure.None? ==> live == old(live)[id := accelerator] && failures == old(failures) - {id}
      ensures failure.None? ==> pending == old(pending) - {id}
      ensures failure.Some? ==>
                live == old(live) && failures == old(failures)[id := failure.value] && pending == old(pending)
      ensures gate.asked == old(gate.asked) + [Ask(id, accelerator, failure)]
      ensures old(ValidBut(id)) ==> ValidBut(id)
    {
      failure := gate.Register(id, accelerator);
      if failure.None? {
        ghost var before := live;
        live := live[id := accelerator];
        failures := failures - {id};
        pending := pending - {id};
        assert live.Values == before.Values + {accelerator} by {
          assert live[id] == accelerator;
          assert forall other :: other in before ==> other in live && live[other] == before[other];
        }
      } else {
        failures := failures[id := failure.value];
      }
    }

    method Acquire(id: Id, accelerator: string) returns (ghost refusal: Option<string>)
      requires OwnsItsKeys() && id !in live
      modifies this`live, this`failures, this`pending, this`timerArmed, gate
      ensures OwnsItsKeys() && gate.asked == old(gate.asked) + [Ask(id, accelerator, refusal)]
      ensures refusal.None? ==>
                live == old(live)[id := accelerator] && failures == old(failures) - {id}
                && pending == old(pending) - {id} && timerArmed == old(timerArmed)
      ensures refusal.Some? ==>
                live == old(live) && failures == old(failures)[id := refusal.value]
                && pending == old(pending) + {id} && timerArmed
    {
      var failure := Bind(id, accelerator);
      refusal := failure;
      if failure.None? {
        return;
      }
      pending := pending + {id};
      ScheduleRetry();
    }

    method Release(id: Id)
      requires OwnsItsKeys()
      modifies this`live, gate
      ensures OwnsItsKeys() && live == old(live) - {id} && gate.asked == old(gate.asked)
      ensures old(ValidBut(id)) ==> ValidBut(id)
    {
      if id !in live {
        return;
      }
      gate.Unregister(live[id]);
      ghost var before := live;
      live := live - {id};
      assert live.Values == before.Values - {before[id]} by {
        assert forall v :: v in before.Values && v != before[id] ==> v in live.Values by {
          forall v | v in before.Values && v != before[id] ensures v in live.Values {
            var k :| k in before && before[k] == v;
            assert k in live && live[k] == v;
          }
        }
      }
    }

    /** Take the binding of one action if it is not live yet. */
    method SyncOne(id: Id) returns (ghost asks: seq<Ask>)
      requires Valid()
      modifies this, gate
      ensures Valid() && (id in live || id in pending)
      ensures old(live.Keys + pending) <= live.Keys + pending && live.Keys - {id} == old(live.Keys) - {id}
      ensures gate.asked == old(gate.asked) + asks && |asks| <= 1
      ensures id in old(live) ==> asks == [] && live == old(live) && failures == old(failures)
      ensures id !in old(live) ==>
                var refusal := if asks == [] then None else asks[0].refusal;
                && asks == [Ask(id, store.bindings[id], refusal)]
                && live == (if refusal.None? then old(live)[id := store.bindings[id]] else old(live))
                && failures == if refusal.None? then old(failures) - {id} else old(failures)[id := refusal.value]
    {
      asks := [];
      if !(id in live && live[id] == store.bindings[id]) {
        ghost var refusal := Acquire(id, store.bindings[id]);
        asks := [Ask(id, store.bindings[id], refusal)];
      }
    }

    /** Take every persisted binding that is not live yet: each is asked for once. */
    method Sync()
      requires Valid()
      modifies this, gate
      ensures Valid() && Synced()
      ensures forall id :: id in old(live) ==> id in live && live[id] == old(live)[id]
      ensures old(gate.asked) <= gate.asked
      ensures AsksEach(gate.asked[|old(gate.asked)|..], AllIds() - old(live).Keys, store.bindings, live, failures)
    {
      ghost var asks: seq<Ask> := [];
      ghost var had := live.Keys;
      for i := 0 to |IDS|
        invariant Valid() && gate.asked == old(gate.asked) + asks
        invariant forall id :: id in old(live) ==> id in live && live[id] == old(live)[id]
        invariant Listed(IDS[..i]) <= live.Keys + pending
        invariant live.Keys - Listed(IDS[..i]) == had - Listed(IDS[..i])
        invariant AsksEach(asks, Listed(IDS[..i]) - had, store.bindings, live, failures)
      {
        var id := IDS[i];
        OneMoreListed(i, had);
        assert id in had - Listed(IDS[..i]) <==> id in live.Keys - Listed(IDS[..i]);
        ghost var before, noted := live, failures;
        ghost var more := SyncOne(id);
        if id !in had {
          OneAskMore(asks, Listed(IDS[..i]) - had, store.bindings, before, noted, id, more[0].refusal);
        }
        OneMorePassed(before.Keys, live.Keys, had, Listed(IDS[..i]), id);
        asks := asks + more;
      }
      assert IDS[..|IDS|] == IDS;
      forall id: Id ensures id in live || id in pending {
        EveryIdIsListed(id);
      }
    }

    /** The stored bindings of the other actions. */
    method Taken(id: Id) returns (taken: map<Id, string>)
      requires store.Total()
      ensures taken == store.bindings - {id}
    {
      taken := map[];
      for i := 0 to |IDS|
        invariant taken == OthersOf(store.bindings, IDS[..i], id)
      {
        OneMoreOther(store.bindings, IDS, i, id);
        if IDS[i] != id {
          taken := taken[IDS[i] := store.bindings[IDS[i]]];
        }
      }
      AllOthers(store.bindings, id);
    }

    /** Give back the action's key and ask for another one. */
    method Exchange(id: Id, target: string) returns (failure: Option<string>)
      requires Valid() && Synced()
      modifies this`live, this`failures, this`pending, gate
      ensures ValidBut(id) && gate.asked == old(gate.asked) + [Ask(id, target, failure)]
      ensures failure.None? ==> live == old(live)[id := target] && pending == old(pending) - {id}
      ensures failure.Some? ==> live == old(live) - {id} && pending == old(pending)
      ensures live - {id} == old(live) - {id} && pending - {id} == old(pending) - {id}
    {
      PutBack(live, id, target);
      Release(id);
      failure := Bind(id, target);
    }

    /** Ask for the previous key again. */
    method RollBack(id: Id, previous: string) returns (ghost again: Option<string>)
      requires ValidBut(id) && id !in live && store.bindings[id] == previous
      modifies this, gate
      ensures Valid() && gate.asked == old(gate.asked) + [Ask(id, previous, again)]
      ensures again.None? ==> live == old(live)[id := previous] && pending == old(pending) - {id}
      ensures again.Some? ==> live == old(live) && pending == old(pending) + {id}
    {
      again := Acquire(id, previous);
    }

    /** Swap the key of one action, going back to the previous one when the new one is refused. */
    method Swap(id: Id, target: string) returns (failure: Option<string>)
      requires Valid() && Synced() && !(id in live && live[id] == target)
      modifies this, gate
      ensures ValidBut(id) && Synced()
      ensures failure.None? ==> live == old(live)[id := target] && pending == old(pending) - {id}
      ensures live - {id} == old(live) - {id} && pending - {id} == old(pending) - {id}
      ensures failure.Some? ==> Valid() && (id in live ==> id in old(live))
      ensures SwapAsked(old(gate.asked), gate.asked, id, target, failure, old(live), live)
    {
      var previous := if id in live then Some(live[id]) else None;
      failure := Exchange(id, target);
      if failure.Some? && previous.Some? {
        ghost var again := RollBack(id, previous.value);
      }
    }

    /** What a request asks for, before any key is touched. */
    method Judge(id: Id, accelerator: Option<string>) returns (request: Request)
      requires store.Total()
      ensures request == Judged(Requested(id, accelerator), platform, store.bindings - {id})
    {
      var requested := match accelerator case Some(a) => a case None => Default(id);
      var chord := ParseAccelerator(requested);
      if chord.None? {
        return Invalid;
      }
      var taken := Taken(id);
      var conflict := FindConflict(chord.value, platform, taken);
      request := match conflict case Some(c) => Clash(c) case None => Free(Serialize(chord.value));
    }

    /** Rebind one action; no accelerator restores the default. A rebind that fails changes nothing in
        the store and nothing about the other actions, and leaves the action on its previous key or
        waiting for it. */
    method Rebind(id: Id, accelerator: Option<string>) returns (outcome: Rebound)
      requires Valid() && Synced() && store.Canonical()
      modifies this, gate, store
      ensures Valid() && Synced() && store.Canonical()
      ensures match Judged(Requested(id, accelerator), platform, old(store.bindings) - {id})
              case Invalid => outcome == NotAKey
              case Clash(c) => outcome == Conflicting(c)
              case Free(target) =>
                if id in old(live) && old(live)[id] == target then outcome == Bound && gate.asked == old(gate.asked)
                else if outcome == Bound then SwapAsked(old(gate.asked), gate.asked, id, target, None, old(live), live)
                else
                  && outcome.Refused?
                  && SwapAsked(old(gate.asked), gate.asked, id, target, Some(outcome.reason), old(live), live)
      ensures outcome.Bound? ==>
                var target := Judged(Requested(id, accelerator), platform, old(store.bindings) - {id}).target;
                store.bindings == old(store.bindings)[id := target] && live == old(live)[id := target]
      ensures outcome.NotAKey? || outcome.Conflicting? ==> gate.asked == old(gate.asked)
      ensures !outcome.Bound? ==> store.bindings == old(store.bindings)
      ensures outcome.Bound? ==> IsOnlyOwner(store.bindings, id)
      ensures old(AreUnshared(store.bindings)) ==> AreUnshared(store.bindings)
      ensures !outcome.Bound? && id in live ==> id in old(live)
      ensures outcome.NotAKey? || outcome.Conflicting? ==> live == old(live) && pending == old(pending)
      ensures live - {id} == old(live) - {id} && pending - {id} == old(pending) - {id}
    {
      var request := Judge(id, accelerator);
      match request
      case Invalid => outcome := NotAKey;
      case Clash(c) => outcome := Conflicting(c);
      case Free(target) =>
        FreeIsUnshared(Requested(id, accelerator), platform, store.bindings, id);
        var failure := Claim(id, target);
        outcome := match failure case None => Bound case Some(reason) => Refused(reason);
    }

    /** A canonical binding is stored as it is. */
    method Persist(id: Id, target: string)
      requires store.Total() && store.Canonical() && Canon(target) == Some(target)
      modifies store
      ensures store.Total() && store.Canonical()
      ensures store.bindings == old(store.bindings)[id := target]
    {
      var stored := store.SetGlobalShortcut(id, target);
    }

    /** The key is the action's already. */
    method Restate(id: Id, target: string)
      requires Valid() && store.Canonical() && Canon(target) == Some(target) && id in live && live[id] == target
      modifies this`failures, store
      ensures Valid() && store.Canonical()
      ensures store.bindings == old(store.bindings)[id := target] && live == live[id := target]
    {
      Persist(id, target);
      failures := failures - {id};
    }

    /** The key is live, and now it is stored. */
    method Settle(id: Id, target: string)
      requires ValidBut(id) && Synced() && id in live && live[id] == target
      requires store.Canonical() && Canon(target) == Some(target)
      modifies store
      ensures Valid() && Synced() && store.Canonical() && store.bindings == old(store.bindings)[id := target]
    {
      Persist(id, target);
    }

    method Replace(id: Id, target: string) returns (failure: Option<string>)
      requires Valid() && Synced() && store.Canonical() && Canon(target) == Some(target)
               && !(id in live && live[id] == target)
      modifies this, gate, store
      ensures Valid() && Synced() && store.Canonical()
      ensures if failure.None?
              then store.bindings == old(store.bindings)[id := target] && live == old(live)[id := target]
              else store.bindings == old(store.bindings) && (id in live ==> id in old(live))
      ensures live - {id} == old(live) - {id} && pending - {id} == old(pending) - {id}
      ensures SwapAsked(old(gate.asked), gate.asked, id, target, failure, old(live), live)
    {
      failure := Swap(id, target);
      ghost var asked, has, waits := gate.asked, live, pending;
      if failure.None? {
        Settle(id, target);
      }
      assert gate.asked == asked && live == has && pending == waits;
    }

    method Claim(id: Id, target: string) returns (failure: Option<string>)
      requires Valid() && Synced() && store.Canonical() && Canon(target) == Some(target)
      modifies this, gate, store
      ensures Valid() && Synced() && store.Canonical()
      ensures if failure.None?
              then store.bindings == old(store.bindings)[id := target] && live == old(live)[id := target]
              else store.bindings == old(store.bindings) && (id in live ==> id in old(live))
      ensures live - {id} == old(live) - {id} && pending - {id} == old(pending) - {id}
      ensures if id in old(live) && old(live)[id] == target then failure == None && gate.asked == old(gate.asked)
              else SwapAsked(old(gate.asked), gate.asked, id, target, failure, old(live), live)
    {
      if id in live && live[id] == target {
        Restate(id, target);
        failure := None;
      } else {
        failure := Replace(id, target);
      }
    }

    /** Try the binding of one action that waits. */
    method RetryOne(id: Id) returns (ghost asks: seq<Ask>)
      requires store.Total() && OwnsItsKeys() && id in pending && (id in live ==> live[id] == store.bindings[id])
      modifies this`live, this`failures, this`pending, gate
      ensures OwnsItsKeys() && gate.asked == old(gate.asked) + asks && |asks| <= 1
      ensures id in old(live) ==>
                asks == [] && live == old(live) && failures == old(failures) && pending == old(pending) - {id}
      ensures id !in old(live) ==>
                var refusal := if asks == [] then None else asks[0].refusal;
                && asks == [Ask(id, store.bindings[id], refusal)]
                && live == (if refusal.None? then old(live)[id := store.bindings[id]] else old(live))
                && failures == (if refusal.None? then old(failures) - {id} else old(failures)[id := refusal.value])
                && pending == if refusal.None? then old(pending) - {id} else old(pending)
    {
      asks := [];
      var target := store.bindings[id];
      if id in live && live[id] == target {
        pending := pending - {id};
      } else {
        var failure := Bind(id, target);
        asks := [Ask(id, target, failure)];
        if failure.None? {
          pending := pending - {id};
        }
      }
    }

    /** The retry timer fires: every binding that was waiting is tried once. */
    method Retry()
      requires Valid() && timerArmed
      modifies this, gate
      ensures Valid() && (old(Synced()) ==> Synced())
      ensures timerArmed <==> pending != {}
      ensures pending <= old(pending)
      ensures forall id :: id in old(live) ==> id in live && live[id] == old(live)[id]
      ensures old(gate.asked) <= gate.asked
      ensures AsksEach(gate.asked[|old(gate.asked)|..], old(pending), store.bindings, live, failures)
    {
      timerArmed := false;
      var waiting := pending;
      ghost var asks: seq<Ask>, tried: set<Id> := [], {};
      while waiting != {}
        invariant waiting <= pending <= old(pending) && tried == old(pending) - waiting && live.Keys !! waiting
        invariant store.Total() && OwnsItsKeys() && !timerArmed
        invariant forall id :: id in live ==> live[id] == store.bindings[id]
        invariant live.Keys !! pending && pending <= failures.Keys
        invariant forall id :: id in old(live) ==> id in live && live[id] == old(live)[id]
        invariant old(pending) <= live.Keys + pending
        invariant gate.asked == old(gate.asked) + asks
        invariant AsksEach(asks, tried, store.bindings, live, failures)
        decreases waiting
      {
        var id :| id in waiting;
        ghost var had, noted := live, failures;
        ghost var more := RetryOne(id);
        OneAskMore(asks, tried, store.bindings, had, noted, id, more[0].refusal);
        asks, tried := asks + more, tried + {id};
        waiting := waiting - {id};
      }
      assert tried == old(pending) && gate.asked[|old(gate.asked)|..] == asks;
      ScheduleRetry();
    }

    method Dispose()
      modifies this, gate
      ensures live == map[] && failures == map[] && pending == {} && !timerArmed && gate.owned == {}
    {
      timerArmed := false;
      pending := {};
      gate.UnregisterAll();
      live := map[];
      failures := map[];
    }
  }
}
