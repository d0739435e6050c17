/** The chat sidebar: one section per project, and inside it the chats by recency. */
module Sidebar {
  import opened Basics
  import opened SessionChain
  import opened ProjectScope

  const DAY_MS := 86_400_000

  /** A root of the session forest or an engine chat. */
  datatype Entry = Entry(isHarness: bool, id: string, updatedAt: int)

  datatype DateGroup = Today | Yesterday | Last7Days | Last30Days | Earlier

  const DATE_GROUPS: seq<DateGroup> := [Today, Yesterday, Last7Days, Last30Days, Earlier]

  datatype Group = Group(group: DateGroup, entries: seq<Entry>)

  datatype Section = Section(projectId: string, entries: seq<Entry>, groups: seq<Group>)

  // ---------- Dates ----------

  /** The start of the local day a time falls in; the calendar decides it, in order of time. */
  type Calendar = int -> int

  ghost predicate IsOrdered(startOfDay: Calendar) {
    forall a, b :: a <= b ==> startOfDay(a) <= startOfDay(b)
  }

  /** `Math.round`: halves go up. */
  function RoundedDays(ms: int): int {
    (2 * ms + DAY_MS) / (2 * DAY_MS)
  }

  function AgeInDays(startOfDay: Calendar, updatedAt: int, now: int): nat {
    var days := RoundedDays(startOfDay(now) - startOfDay(updatedAt));
    if days < 0 then 0 else days
  }

  /** A calendar day that is up to half a day longer or shorter still counts as one day. */
  lemma RoundingAbsorbsClockChanges(startOfDay: Calendar, updatedAt: int, now: int, days: nat, shift: int)
    requires startOfDay(now) - startOfDay(updatedAt) == days * 86_400_000 + shift
    requires -86_400_000 <= 2 * shift < 86_400_000
    ensures AgeInDays(startOfDay, updatedAt, now) == days
  {
    var ms := days * DAY_MS + shift;
    assert 2 * ms + DAY_MS == days * (2 * DAY_MS) + (2 * shift + DAY_MS);
  }

  /** Chats of today, and any with a time to come, are no day old. */
  lemma NothingIsYoungerThanToday(startOfDay: Calendar, updatedAt: int, now: int)
    requires startOfDay(now) <= startOfDay(updatedAt)
    ensures AgeInDays(startOfDay, updatedAt, now) == 0
  {
  }

  function Rank(days: nat): nat {
    if days == 0 then 0 else if days == 1 then 1 else if days < 7 then 2 else if days < 30 then 3 else 4
  }

  function RankOf(startOfDay: Calendar, now: int, e: Entry): (r: nat)
    ensures r < |DATE_GROUPS|
  {
    Rank(AgeInDays(startOfDay, e.updatedAt, now))
  }

  lemma OlderRanksLater(startOfDay: Calendar, now: int, newer: Entry, older: Entry)
    requires IsOrdered(startOfDay) && older.updatedAt <= newer.updatedAt
    ensures RankOf(startOfDay, now, newer) <= RankOf(startOfDay, now, older)
  {
    var a, b := startOfDay(now) - startOfDay(newer.updatedAt), startOfDay(now) - startOfDay(older.updatedAt);
    assert a <= b;
    assert RoundedDays(a) <= RoundedDays(b);
  }

  // ---------- Sorting ----------

  predicate IsNewestFirst(entries: seq<Entry>) {
    forall i, j :: 0 <= i < j < |entries| ==> entries[i].updatedAt >= entries[j].updatedAt
  }

  /** After every entry that is at least as new. */
  function Insert(e: Entry, sorted: seq<Entry>): (r: seq<Entry>)
    ensures multiset(r) == multiset(sorted) + multiset{e}
  {
    if sorted == [] then [e]
    else if sorted[0].updatedAt >= e.updatedAt then
      assert sorted == [sorted[0]] + sorted[1..];
      [sorted[0]] + Insert(e, sorted[1..])
    else
      [e] + sorted
  }

  /** The runtime's stable sort by descending time. */
  function NewestFirst(entries: seq<Entry>): (r: seq<Entry>)
    ensures multiset(r) == multiset(entries)
  {
    if entries == [] then []
    else
      assert entries == entries[..|entries| - 1] + [entries[|entries| - 1]];
      Insert(entries[|entries| - 1], NewestFirst(entries[..|entries| - 1]))
  }

  lemma {:induction false} InsertKeepsOrder(e: Entry, sorted: seq<Entry>)
    requires IsNewestFirst(sorted)
    ensures IsNewestFirst(Insert(e, sorted))
  {
    if sorted != [] && sorted[0].updatedAt >= e.updatedAt {
      InsertKeepsOrder(e, sorted[1..]);
      var r := Insert(e, sorted[1..]);
      forall k | 0 <= k < |r| ensures sorted[0].updatedAt >= r[k].updatedAt {
        assert r[k] in multiset(r);
        assert sorted == [sorted[0]] + sorted[1..];
        if r[k] != e {
          assert r[k] in multiset(sorted[1..]);
        }
      }
    }
  }

  lemma {:induction false} SortedIsNewestFirst(entries: seq<Entry>)
    ensures IsNewestFirst(NewestFirst(entries))
  {
    if entries != [] {
      SortedIsNewestFirst(entries[..|entries| - 1]);
      InsertKeepsOrder(entries[|entries| - 1], NewestFirst(entries[..|entries| - 1]));
    }
  }

  lemma {:induction false} InsertOldest(e: Entry, sorted: seq<Entry>)
    requires forall k :: 0 <= k < |sorted| ==> sorted[k].updatedAt >= e.updatedAt
    ensures Insert(e, sorted) == sorted + [e]
  {
    if sorted != [] {
      InsertOldest(e, sorted[1..]);
    }
  }

  /** Sorting what is sorted changes nothing. */
  lemma {:induction false} SortingAgainChangesNothing(entries: seq<Entry>)
    requires IsNewestFirst(entries)
    ensures NewestFirst(entries) == entries
  {
    if entries != [] {
      SortingAgainChangesNothing(entries[..|entries| - 1]);
      InsertOldest(entries[|entries| - 1], entries[..|entries| - 1]);
    }
  }

  /** The chats of one time, in order. */
  function AtTime(entries: seq<Entry>, time: int): seq<Entry> {
    if entries == [] then []
    else if entries[0].updatedAt == time then [entries[0]] + AtTime(entries[1..], time)
    else AtTime(entries[1..], time)
  }

  lemma AtTimeFirst(e: Entry, rest: seq<Entry>, time: int)
    ensures AtTime([e] + rest, time) == if e.updatedAt == time then [e] + AtTime(rest, time) else AtTime(rest, time)
  {
    assert ([e] + rest)[1..] == rest;
  }

  lemma {:induction false} AtTimeLast(before: seq<Entry>, e: Entry, time: int)
    ensures AtTime(before + [e], time) == AtTime(before, time) + if e.updatedAt == time then [e] else []
  {
    if before == [] {
      AtTimeFirst(e, [], time);
      assert before + [e] == [e] + [];
    } else {
      AtTimeLast(before[1..], e, time);
      AtTimeFirst(before[0], before[1..] + [e], time);
      assert before + [e] == [before[0]] + (before[1..] + [e]);
    }
  }

  lemma {:induction false} NoneAtNewerTime(sorted: seq<Entry>, time: int)
    requires IsNewestFirst(sorted) && (sorted != [] ==> sorted[0].updatedAt < time)
    ensures AtTime(sorted, time) == []
  {
    if sorted != [] {
      NoneAtNewerTime(sorted[1..], time);
    }
  }

  lemma {:induction false} InsertComesLast(e: Entry, sorted: seq<Entry>, time: int)
    requires IsNewestFirst(sorted)
    ensures AtTime(Insert(e, sorted), time) == AtTime(sorted, time) + if e.updatedAt == time then [e] else []
  {
    if sorted == [] {
      AtTimeLast(sorted, e, time);
      assert sorted + [e] == [e];
    } else if sorted[0].updatedAt >= e.updatedAt {
      InsertComesLast(e, sorted[1..], time);
      AtTimeFirst(sorted[0], Insert(e, sorted[1..]), time);
    } else {
      NoneAtNewerTime(sorted, e.updatedAt);
      AtTimeFirst(e, sorted, time);
    }
  }

  lemma OneMoreKeepsItsPlace(entries: seq<Entry>, time: int)
    requires entries != []
    requires AtTime(NewestFirst(entries[..|entries| - 1]), time) == AtTime(entries[..|entries| - 1], time)
    ensures AtTime(NewestFirst(entries), time) == AtTime(entries, time)
  {
    var before, e := entries[..|entries| - 1], entries[|entries| - 1];
    SortedIsNewestFirst(before);
    InsertComesLast(e, NewestFirst(before), time);
    AtTimeEnds(entries, time);
  }

  lemma AtTimeEnds(entries: seq<Entry>, time: int)
    requires entries != []
    ensures AtTime(entries, time)
            == AtTime(entries[..|entries| - 1], time)
               + if entries[|entries| - 1].updatedAt == time then [entries[|entries| - 1]] else []
  {
    AtTimeLast(entries[..|entries| - 1], entries[|entries| - 1], time);
    assert entries[..|entries| - 1] + [entries[|entries| - 1]] == entries;
  }

  /** Chats of the same time keep their order. */
  lemma {:induction false} SortIsStable(entries: seq<Entry>, time: int)
    ensures AtTime(NewestFirst(entries), time) == AtTime(entries, time)
  {
    if entries != [] {
      SortIsStable(entries[..|entries| - 1], time);
      OneMoreKeepsItsPlace(entries, time);
    }
  }

  // ---------- Buckets ----------

  /** The entries of one date group, in order. */
  function InGroup(startOfDay: Calendar, now: int, entries: seq<Entry>, g: nat): seq<Entry> {
    if entries == [] then []
    else
      var e := entries[|entries| - 1];
      InGroup(startOfDay, now, entries[..|entries| - 1], g) + if RankOf(startOfDay, now, e) == g then [e] else []
  }

  /** The groups from `g` on, without the empty ones. */
  function GroupsFrom(startOfDay: Calendar, now: int, entries: seq<Entry>, g: nat): seq<Group>
    requires g <= |DATE_GROUPS|
    decreases |DATE_GROUPS| - g
  {
    if g == |DATE_GROUPS| then []
    else
      var here := InGroup(startOfDay, now, entries, g);
      (if here == [] then [] else [Group(DATE_GROUPS[g], here)]) + GroupsFrom(startOfDay, now, entries, g + 1)
  }

  function Flatten(groups: seq<Group>): seq<Entry> {
    if groups == [] then [] else groups[0].entries + Flatten(groups[1..])
  }

  /** The buckets hold the groups of these entries, and only those that have any. */
  ghost predicate AreBuckets(startOfDay: Calendar, now: int, entries: seq<Entry>, buckets: map<nat, seq<Entry>>) {
    && (forall g: nat :: g in buckets ==> buckets[g] == InGroup(startOfDay, now, entries, g) && buckets[g] != [])
    && (forall g: nat :: g !in buckets ==> InGroup(startOfDay, now, entries, g) == [])
  }

  lemma OneMoreBucketed(startOfDay: Calendar, now: int, entries: seq<Entry>, buckets: map<nat, seq<Entry>>, e: Entry)
    requires AreBuckets(startOfDay, now, entries, buckets)
    ensures var g := RankOf(startOfDay, now, e);
            AreBuckets(startOfDay, now, entries + [e], buckets[g := (if g in buckets then buckets[g] else []) + [e]])
  {
    assert (entries + [e])[..|entries|] == entries;
  }

  method FillBuckets(sorted: seq<Entry>, now: int, startOfDay: Calendar) returns (buckets: map<nat, seq<Entry>>)
    ensures AreBuckets(startOfDay, now, sorted, buckets)
  {
    buckets := map[];
    for i := 0 to |sorted|
      invariant AreBuckets(startOfDay, now, sorted[..i], buckets)
    {
      OneMoreBucketed(startOfDay, now, sorted[..i], buckets, sorted[i]);
      assert sorted[..i + 1] == sorted[..i] + [sorted[i]];
      var group := RankOf(startOfDay, now, sorted[i]);
      if group in buckets {
        buckets := buckets[group := buckets[group] + [sorted[i]]];
      } else {
        assert [] + [sorted[i]] == [sorted[i]];
        buckets := buckets[group := [sorted[i]]];
      }
    }
    assert sorted[..|sorted|] == sorted;
  }

  method BucketEntriesByDate(entries: seq<Entry>, now: int, startOfDay: Calendar) returns (groups: seq<Group>)
    ensures groups == GroupsFrom(startOfDay, now, NewestFirst(entries), 0)
  {
    var sorted := NewestFirst(entries);
    var buckets := FillBuckets(sorted, now, startOfDay);
    groups := [];
    var g := |DATE_GROUPS|;
    while g > 0
      invariant 0 <= g <= |DATE_GROUPS|
      invariant groups == GroupsFrom(startOfDay, now, sorted, g)
    {
      g := g - 1;
      assert [] + groups == groups;
      if g in buckets {
        groups := [Group(DATE_GROUPS[g], buckets[g])] + groups;
      }
    }
  }

  lemma {:induction false} NoneLater(startOfDay: Calendar, now: int, entries: seq<Entry>, r: nat, g: nat)
    requires forall k :: 0 <= k < |entries| ==> RankOf(startOfDay, now, entries[k]) <= r
    requires r < g
    ensures InGroup(startOfDay, now, entries, g) == []
  {
    if entries != [] {
      NoneLater(startOfDay, now, entries[..|entries| - 1], r, g);
    }
  }

  lemma {:induction false} NoGroupsLater(startOfDay: Calendar, now: int, entries: seq<Entry>, r: nat, g: nat)
    requires forall k :: 0 <= k < |entries| ==> RankOf(startOfDay, now, entries[k]) <= r
    requires r < g <= |DATE_GROUPS|
    ensures GroupsFrom(startOfDay, now, entries, g) == []
    decreases |DATE_GROUPS| - g
  {
    if g < |DATE_GROUPS| {
      NoneLater(startOfDay, now, entries, r, g);
      NoGroupsLater(startOfDay, now, entries, r, g + 1);
    }
  }

  lemma FirstGroup(startOfDay: Calendar, now: int, entries: seq<Entry>, g: nat)
    requires g < |DATE_GROUPS|
    ensures Flatten(GroupsFrom(startOfDay, now, entries, g))
            == InGroup(startOfDay, now, entries, g) + Flatten(GroupsFrom(startOfDay, now, entries, g + 1))
  {
    var here := InGroup(startOfDay, now, entries, g);
    var rest := GroupsFrom(startOfDay, now, entries, g + 1);
    if here == [] {
      assert [] + rest == rest;
    } else {
      assert ([Group(DATE_GROUPS[g], here)] + rest)[1..] == rest;
    }
  }

  lemma LastGroup(startOfDay: Calendar, now: int, entries: seq<Entry>, g: nat)
    requires forall k :: 0 <= k < |entries| ==> RankOf(startOfDay, now, entries[k]) <= g
    requires g < |DATE_GROUPS|
    ensures Flatten(GroupsFrom(startOfDay, now, entries, g)) == InGroup(startOfDay, now, entries, g)
  {
    var here := InGroup(startOfDay, now, entries, g);
    FirstGroup(startOfDay, now, entries, g);
    NoGroupsLater(startOfDay, now, entries, g, g + 1);
    assert here + [] == here;
  }

  /** In its own group the oldest entry comes last, and no later group has any. */
  lemma OldestEndsItsGroup(startOfDay: Calendar, now: int, before: seq<Entry>, e: Entry)
    requires forall k :: 0 <= k < |before| ==> RankOf(startOfDay, now, before[k]) <= RankOf(startOfDay, now, e)
    ensures var g := RankOf(startOfDay, now, e);
            Flatten(GroupsFrom(startOfDay, now, before + [e], g))
            == Flatten(GroupsFrom(startOfDay, now, before, g)) + [e]
  {
    var g := RankOf(startOfDay, now, e);
    LastGroup(startOfDay, now, before, g);
    LastGroup(startOfDay, now, before + [e], g);
    OneMoreInGroup(startOfDay, now, before, e, g);
  }

  lemma EarlierGroupStays(startOfDay: Calendar, now: int, before: seq<Entry>, e: Entry, g: nat)
    requires g < RankOf(startOfDay, now, e)
    requires Flatten(GroupsFrom(startOfDay, now, before + [e], g + 1))
             == Flatten(GroupsFrom(startOfDay, now, before, g + 1)) + [e]
    ensures Flatten(GroupsFrom(startOfDay, now, before + [e], g))
            == Flatten(GroupsFrom(startOfDay, now, before, g)) + [e]
  {
    FirstGroup(startOfDay, now, before, g);
    FirstGroup(startOfDay, now, before + [e], g);
    OneMoreInGroup(startOfDay, now, before, e, g);
    AppendLast(InGroup(startOfDay, now, before, g), Flatten(GroupsFrom(startOfDay, now, before, g + 1)), e);
  }

  /** The days each header stands for. */
  predicate IsOfAge(group: DateGroup, days: nat) {
    match group
    case Today => days == 0
    case Yesterday => days == 1
    case Last7Days => 2 <= days < 7
    case Last30Days => 7 <= days < 30
    case Earlier => 30 <= days
  }

  lemma {:induction false} GroupMembers(startOfDay: Calendar, now: int, entries: seq<Entry>, g: nat)
    requires g < |DATE_GROUPS|
    ensures forall e <- InGroup(startOfDay, now, entries, g) ::
              e in entries && IsOfAge(DATE_GROUPS[g], AgeInDays(startOfDay, e.updatedAt, now))
  {
    if entries != [] {
      GroupMembers(startOfDay, now, entries[..|entries| - 1], g);
    }
  }

  /** The place of each header in the list. */
  function Place(group: DateGroup): nat {
    match group case Today => 0 case Yesterday => 1 case Last7Days => 2 case Last30Days => 3 case Earlier => 4
  }

  ghost predicate IsGroupByAge(startOfDay: Calendar, now: int, x: Group) {
    x.entries != [] && forall e <- x.entries :: IsOfAge(x.group, AgeInDays(startOfDay, e.updatedAt, now))
  }

  ghost predicate AreGroupsByAge(startOfDay: Calendar, now: int, groups: seq<Group>, from: nat) {
    && (forall i :: 0 <= i < |groups| ==> IsGroupByAge(startOfDay, now, groups[i]) && Place(groups[i].group) >= from)
    && (forall i, j :: 0 <= i < j < |groups| ==> Place(groups[i].group) < Place(groups[j].group))
  }

  lemma FirstGroupByAge(startOfDay: Calendar, now: int, first: Group, groups: seq<Group>, from: nat)
    requires AreGroupsByAge(startOfDay, now, groups, from + 1)
    requires IsGroupByAge(startOfDay, now, first) && Place(first.group) == from
    ensures AreGroupsByAge(startOfDay, now, [first] + groups, from)
  {
  }

  /** Under each header, in the order of the headers and none without a chat, stand chats of that age. */
  lemma {:induction false} GroupsGoByDays(startOfDay: Calendar, now: int, entries: seq<Entry>, g: nat)
    requires g <= |DATE_GROUPS|
    ensures AreGroupsByAge(startOfDay, now, GroupsFrom(startOfDay, now, entries, g), g)
    decreases |DATE_GROUPS| - g
  {
    if g < |DATE_GROUPS| {
      GroupsGoByDays(startOfDay, now, entries, g + 1);
      GroupMembers(startOfDay, now, entries, g);
      AddsGroup(startOfDay, now, entries, g);
    }
  }

  lemma AddsGroup(startOfDay: Calendar, now: int, entries: seq<Entry>, g: nat)
    requires g < |DATE_GROUPS|
    requires AreGroupsByAge(startOfDay, now, GroupsFrom(startOfDay, now, entries, g + 1), g + 1)
    requires forall e <- InGroup(startOfDay, now, entries, g) ::
               IsOfAge(DATE_GROUPS[g], AgeInDays(startOfDay, e.updatedAt, now))
    ensures AreGroupsByAge(startOfDay, now, GroupsFrom(startOfDay, now, entries, g), g)
  {
    var here, rest := InGroup(startOfDay, now, entries, g), GroupsFrom(startOfDay, now, entries, g + 1);
    if here == [] {
      LaterGroupsByAge(startOfDay, now, rest, g);
      assert GroupsFrom(startOfDay, now, entries, g) == rest;
    } else {
      var first := Group(DATE_GROUPS[g], here);
      FirstGroupByAge(startOfDay, now, first, rest, g);
      assert GroupsFrom(startOfDay, now, entries, g) == [first] + rest;
    }
  }

  lemma LaterGroupsByAge(startOfDay: Calendar, now: int, groups: seq<Group>, from: nat)
    requires AreGroupsByAge(startOfDay, now, groups, from + 1)
    ensures AreGroupsByAge(startOfDay, now, groups, from)
  {
  }

  /** The newest-first order goes through the groups in order. */
  lemma {:induction false} OldestComesLast(startOfDay: Calendar, now: int, before: seq<Entry>, e: Entry, g: nat)
    requires g <= RankOf(startOfDay, now, e)
    requires forall k :: 0 <= k < |before| ==> RankOf(startOfDay, now, before[k]) <= RankOf(startOfDay, now, e)
    ensures Flatten(GroupsFrom(startOfDay, now, before + [e], g))
            == Flatten(GroupsFrom(startOfDay, now, before, g)) + [e]
    decreases |DATE_GROUPS| - g
  {
    if g < RankOf(startOfDay, now, e) {
      OldestComesLast(startOfDay, now, before, e, g + 1);
      EarlierGroupStays(startOfDay, now, before, e, g);
    } else {
      OldestEndsItsGroup(startOfDay, now, before, e);
    }
  }

  lemma OneMoreInGroup(startOfDay: Calendar, now: int, before: seq<Entry>, e: Entry, g: nat)
    ensures InGroup(startOfDay, now, before + [e], g)
            == InGroup(startOfDay, now, before, g) + if RankOf(startOfDay, now, e) == g then [e] else []
  {
    assert (before + [e])[..|before|] == before;
  }

  lemma AppendLast(a: seq<Entry>, b: seq<Entry>, e: Entry)
    ensures a + [] + (b + [e]) == a + b + [e]
  {
  }

  lemma {:induction false} SortedGroupsFlatten(startOfDay: Calendar, now: int, sorted: seq<Entry>)
    requires IsOrdered(startOfDay) && IsNewestFirst(sorted)
    ensures Flatten(GroupsFrom(startOfDay, now, sorted, 0)) == sorted
  {
    if sorted == [] {
      NoGroupsLater0(startOfDay, now);
    } else {
      var before, e := sorted[..|sorted| - 1], sorted[|sorted| - 1];
      SortedGroupsFlatten(startOfDay, now, before);
      forall k | 0 <= k < |before| ensures RankOf(startOfDay, now, before[k]) <= RankOf(startOfDay, now, e) {
        OlderRanksLater(startOfDay, now, before[k], e);
      }
      OldestComesLast(startOfDay, now, before, e, 0);
      assert before + [e] == sorted;
    }
  }

  lemma NoGroupsLater0(startOfDay: Calendar, now: int)
    ensures GroupsFrom(startOfDay, now, [], 0) == []
  {
    NoGroupsLater(startOfDay, now, [], 0, 1);
  }

  /** The groups laid end to end are all the entries, newest first: grouping loses and reorders nothing. */
  lemma GroupsAreTheEntries(startOfDay: Calendar, now: int, entries: seq<Entry>)
    requires IsOrdered(startOfDay)
    ensures var groups := GroupsFrom(startOfDay, now, NewestFirst(entries), 0);
            && Flatten(groups) == NewestFirst(entries)
            && IsNewestFirst(Flatten(groups))
            && multiset(Flatten(groups)) == multiset(entries)
  {
    SortedIsNewestFirst(entries);
    SortedGroupsFlatten(startOfDay, now, NewestFirst(entries));
  }

  // ---------- Sections ----------

  /** Where chats without a listed project go. */
  function Fallback(projects: seq<string>): string {
    if PERSONAL_PROJECT_ID in projects then PERSONAL_PROJECT_ID
    else if projects != [] then projects[0]
    else ""
  }

  /** The project of a chat: resolved through its parents for a session, its own for an engine chat. */
  function ProjectIdOf(resolved: map<string, Option<string>>, direct: Projects, e: Entry): Option<string> {
    if e.isHarness then (if e.id in resolved then resolved[e.id] else None)
    else if e.id in direct then Some(direct[e.id])
    else None
  }

  /** The section a chat belongs in; an empty id stands for none. */
  function OwnerOf(projects: seq<string>, resolved: map<string, Option<string>>, direct: Projects, e: Entry): string {
    match ProjectIdOf(resolved, direct, e)
    case Some(p) => if p != "" && p in projects then p else Fallback(projects)
    case None => Fallback(projects)
  }

  function Owned(projects: seq<string>, resolved: map<string, Option<string>>, direct: Projects, entries: seq<Entry>,
                 p: string): seq<Entry>
  {
    if entries == [] then []
    else
      var e := entries[|entries| - 1];
      Owned(projects, resolved, direct, entries[..|entries| - 1], p)
      + if OwnerOf(projects, resolved, direct, e) == p then [e] else []
  }

  method CollectByProject(projects: seq<string>, resolved: map<string, Option<string>>, direct: Projects,
                          entries: seq<Entry>)
    returns (byProject: map<string, seq<Entry>>)
    ensures forall p :: p in byProject ==> p != "" && byProject[p] == Owned(projects, resolved, direct, entries, p)
    ensures forall p :: p != "" && p !in byProject ==> Owned(projects, resolved, direct, entries, p) == []
  {
    byProject := map[];
    for i := 0 to |entries|
      invariant forall p :: p in byProject ==>
                  p != "" && byProject[p] == Owned(projects, resolved, direct, entries[..i], p)
      invariant forall p :: p != "" && p !in byProject ==> Owned(projects, resolved, direct, entries[..i], p) == []
    {
      assert entries[..i + 1][..i] == entries[..i];
      var owner := OwnerOf(projects, resolved, direct, entries[i]);
      if owner != "" {
        if owner in byProject {
          byProject := byProject[owner := byProject[owner] + [entries[i]]];
        } else {
          byProject := byProject[owner := [entries[i]]];
        }
      }
    }
    assert entries[..|entries|] == entries;
  }

  ghost predicate IsSectionFor(section: Section, p: string, chats: seq<Entry>, now: int, startOfDay: Calendar) {
    && section.projectId == p
    && section.entries == NewestFirst(chats)
    && section.groups == GroupsFrom(startOfDay, now, NewestFirst(section.entries), 0)
  }

  method MakeSection(p: string, chats: seq<Entry>, now: int, startOfDay: Calendar) returns (section: Section)
    ensures IsSectionFor(section, p, chats, now, startOfDay)
  {
    var sorted := NewestFirst(chats);
    var groups := BucketEntriesByDate(sorted, now, startOfDay);
    section := Section(p, sorted, groups);
  }

  ghost predicate AreSections(sections: seq<Section>, projects: seq<string>, chats: map<string, seq<Entry>>, now: int,
                              startOfDay: Calendar)
  {
    && |sections| <= |projects|
    && forall k :: 0 <= k < |sections| ==>
         IsSectionFor(sections[k], projects[k],
                      if projects[k] in chats then chats[projects[k]] else [], now, startOfDay)
  }

  method MakeSections(projects: seq<string>, chats: map<string, seq<Entry>>, now: int, startOfDay: Calendar)
    returns (sections: seq<Section>)
    ensures |sections| == |projects| && AreSections(sections, projects, chats, now, startOfDay)
  {
    sections := [];
    for k := 0 to |projects|
      invariant |sections| == k && AreSections(sections, projects, chats, now, startOfDay)
    {
      var own := if projects[k] in chats then chats[projects[k]] else [];
      var section := MakeSection(projects[k], own, now, startOfDay);
      sections := sections + [section];
    }
  }

  /** One section per project, in their order, with or without chats. */
  method GroupSessionsByProject(projects: seq<string>, harnessSessions: seq<Session>, entries: seq<Entry>,
                                direct: Projects, now: int, startOfDay: Calendar)
    returns (sections: seq<Section>, resolved: map<string, Option<string>>)
    ensures forall id :: id in resolved ==> IsProjectOf(ByIdOf(harnessSessions), direct, id, resolved[id])
    ensures forall i :: 0 <= i < |harnessSessions| ==> harnessSessions[i].id in resolved
    ensures |sections| == |projects|
    ensures forall k :: 0 <= k < |projects| && projects[k] != "" ==>
      IsSectionFor(sections[k], projects[k], Owned(projects, resolved, direct, entries, projects[k]), now, startOfDay)
  {
    resolved := ResolveSessionProjectIds(harnessSessions, direct);
    var byProject := CollectByProject(projects, resolved, direct, entries);
    sections := MakeSections(projects, byProject, now, startOfDay);
  }

  /** The project a chat is in: for a session the first attribution on its chain of parents, for an engine chat its
      own. */
  ghost predicate IsProjectOfChat(index: Index, direct: Projects, e: Entry, project: Option<string>) {
    if e.isHarness then IsProjectOf(index, direct, e.id, project)
    else project == if e.id in direct then Some(direct[e.id]) else None
  }

  /** A chat stands in the section of its project; without one, or when that project is not listed, under Personal, and
      if that is not listed either, under the first project. */
  ghost predicate StandsIn(projects: seq<string>, project: Option<string>, p: string) {
    if project.Some? && project.value != "" && project.value in projects then p == project.value
    else if "personal" in projects then p == "personal"
    else projects != [] && p == projects[0]
  }

  lemma {:induction false} OwnedAreThose(projects: seq<string>, resolved: map<string, Option<string>>,
                                         direct: Projects, entries: seq<Entry>, p: string, e: Entry)
    ensures multiset(Owned(projects, resolved, direct, entries, p))[e]
            == if OwnerOf(projects, resolved, direct, e) == p then multiset(entries)[e] else 0
  {
    if entries != [] {
      var before, last := entries[..|entries| - 1], entries[|entries| - 1];
      OwnedAreThose(projects, resolved, direct, before, p, e);
      SplitLast(entries);
      OneMoreOwned(projects, resolved, direct, before, last, p);
    }
  }

  lemma SplitLast(entries: seq<Entry>)
    requires entries != []
    ensures var before, last := entries[..|entries| - 1], entries[|entries| - 1];
            before + [last] == entries && multiset(entries) == multiset(before) + multiset{last}
  {
    assert entries[..|entries| - 1] + [entries[|entries| - 1]] == entries;
  }

  /** Each chat stands in exactly one section, that of its project, as often as it was given. */
  lemma EveryChatStandsWithItsProject(projects: seq<string>, index: Index, resolved: map<string, Option<string>>,
                                      direct: Projects, entries: seq<Entry>, section: Section, now: int,
                                      startOfDay: Calendar, e: Entry, project: Option<string>)
    requires section.projectId != ""
    requires IsSectionFor(section, section.projectId,
                          Owned(projects, resolved, direct, entries, section.projectId), now, startOfDay)
    requires forall id <- resolved :: IsProjectOf(index, direct, id, resolved[id])
    requires e.isHarness ==> e.id in resolved
    requires IsProjectOfChat(index, direct, e, project)
    ensures multiset(section.entries)[e]
            == if StandsIn(projects, project, section.projectId) then multiset(entries)[e] else 0
  {
    OwnedAreThose(projects, resolved, direct, entries, section.projectId, e);
    if e.isHarness {
      ProjectIsUnique(index, direct, e.id, project, resolved[e.id]);
    }
  }

  // ---------- No chat is lost ----------

  ghost function AllEntries(sections: seq<Section>): multiset<Entry> {
    if sections == [] then multiset{}
    else AllEntries(sections[..|sections| - 1]) + multiset(sections[|sections| - 1].entries)
  }

  ghost function OwnedByFirst(projects: seq<string>, resolved: map<string, Option<string>>, direct: Projects,
                              entries: seq<Entry>, n: nat): multiset<Entry>
    requires n <= |projects|
  {
    if n == 0 then multiset{}
    else OwnedByFirst(projects, resolved, direct, entries, n - 1)
         + multiset(Owned(projects, resolved, direct, entries, projects[n - 1]))
  }

  lemma {:induction false} OwnerCountsOnce(projects: seq<string>, resolved: map<string, Option<string>>,
                                           direct: Projects, entries: seq<Entry>, e: Entry, n: nat)
    requires n <= |projects|
    requires forall i, j :: 0 <= i < j < |projects| ==> projects[i] != projects[j]
    ensures OwnedByFirst(projects, resolved, direct, entries + [e], n)
            == OwnedByFirst(projects, resolved, direct, entries, n)
               + if OwnerOf(projects, resolved, direct, e) in projects[..n] then multiset{e} else multiset{}
  {
    if n > 0 {
      OwnerCountsOnce(projects, resolved, direct, entries, e, n - 1);
      OneMoreOwned(projects, resolved, direct, entries, e, projects[n - 1]);
      var owner := OwnerOf(projects, resolved, direct, e);
      OwnerAmongFirst(projects, owner, n);
      AddOnce(OwnedByFirst(projects, resolved, direct, entries, n - 1),
              multiset(Owned(projects, resolved, direct, entries, projects[n - 1])), e,
              owner in projects[..n - 1], owner == projects[n - 1]);
    }
  }

  lemma AddOnce<T>(a: multiset<T>, b: multiset<T>, e: T, inFirst: bool, inLast: bool)
    requires !(inFirst && inLast)
    ensures (a + if inFirst then multiset{e} else multiset{}) + (b + if inLast then multiset{e} else multiset{})
            == a + b + if inFirst || inLast then multiset{e} else multiset{}
  {
  }

  lemma OneMoreOwned(projects: seq<string>, resolved: map<string, Option<string>>, direct: Projects,
                     entries: seq<Entry>, e: Entry, p: string)
    ensures multiset(Owned(projects, resolved, direct, entries + [e], p))
            == multiset(Owned(projects, resolved, direct, entries, p))
               + if OwnerOf(projects, resolved, direct, e) == p then multiset{e} else multiset{}
  {
    assert (entries + [e])[..|entries|] == entries;
    var was := Owned(projects, resolved, direct, entries, p);
    if OwnerOf(projects, resolved, direct, e) == p {
      assert Owned(projects, resolved, direct, entries + [e], p) == was + [e];
    } else {
      assert Owned(projects, resolved, direct, entries + [e], p) == was;
    }
  }

  lemma OwnerAmongFirst(projects: seq<string>, owner: string, n: nat)
    requires 0 < n <= |projects|
    requires forall i, j :: 0 <= i < j < |projects| ==> projects[i] != projects[j]
    ensures owner == projects[n - 1] ==> owner !in projects[..n - 1]
    ensures owner in projects[..n] <==> owner in projects[..n - 1] || owner == projects[n - 1]
  {
    assert projects[..n] == projects[..n - 1] + [projects[n - 1]];
  }

  lemma OwnerIsListed(projects: seq<string>, resolved: map<string, Option<string>>, direct: Projects, e: Entry)
    requires projects != []
    ensures OwnerOf(projects, resolved, direct, e) in projects
  {
    assert projects[0] in projects;
  }

  lemma {:induction false} EveryChatIsOwnedOnce(projects: seq<string>, resolved: map<string, Option<string>>,
                                                direct: Projects, entries: seq<Entry>)
    requires projects != [] && forall i, j :: 0 <= i < j < |projects| ==> projects[i] != projects[j]
    ensures OwnedByFirst(projects, resolved, direct, entries, |projects|) == multiset(entries)
  {
    if entries == [] {
      NothingOwned(projects, resolved, direct, |projects|);
    } else {
      var before, e := entries[..|entries| - 1], entries[|entries| - 1];
      EveryChatIsOwnedOnce(projects, resolved, direct, before);
      OwnerCountsOnce(projects, resolved, direct, before, e, |projects|);
      OwnerIsListed(projects, resolved, direct, e);
      assert projects[..|projects|] == projects;
      assert before + [e] == entries;
    }
  }

  lemma {:induction false} NothingOwned(projects: seq<string>, resolved: map<string, Option<string>>, direct: Projects,
                                        n: nat)
    requires n <= |projects|
    ensures OwnedByFirst(projects, resolved, direct, [], n) == multiset{}
  {
    if n > 0 {
      NothingOwned(projects, resolved, direct, n - 1);
    }
  }

  lemma {:induction false} SectionsHoldTheOwned(projects: seq<string>, resolved: map<string, Option<string>>,
                                                direct: Projects, entries: seq<Entry>, sections: seq<Section>, n: nat,
                                                now: int, startOfDay: Calendar)
    requires n <= |projects| == |sections|
    requires "" !in projects
    requires forall k :: 0 <= k < |projects| ==>
      IsSectionFor(sections[k], projects[k], Owned(projects, resolved, direct, entries, projects[k]), now, startOfDay)
    ensures AllEntries(sections[..n]) == OwnedByFirst(projects, resolved, direct, entries, n)
  {
    if n > 0 {
      SectionsHoldTheOwned(projects, resolved, direct, entries, sections, n - 1, now, startOfDay);
      OneMoreSection(sections, n);
    }
  }

  lemma OneMoreSection(sections: seq<Section>, n: nat)
    requires 0 < n <= |sections|
    ensures AllEntries(sections[..n]) == AllEntries(sections[..n - 1]) + multiset(sections[n - 1].entries)
  {
    assert sections[..n][..n - 1] == sections[..n - 1];
  }

  /** With at least one project, no two alike and none without an id, the sections hold every chat
      exactly once, and each section's groups are its chats, newest first. */
  lemma NoChatIsLost(projects: seq<string>, resolved: map<string, Option<string>>, direct: Projects,
                     entries: seq<Entry>, sections: seq<Section>, now: int, startOfDay: Calendar)
    requires projects != [] && "" !in projects
    requires forall i, j :: 0 <= i < j < |projects| ==> projects[i] != projects[j]
    requires |sections| == |projects| && IsOrdered(startOfDay)
    requires forall k :: 0 <= k < |projects| ==>
      IsSectionFor(sections[k], projects[k], Owned(projects, resolved, direct, entries, projects[k]), now, startOfDay)
    ensures AllEntries(sections) == multiset(entries)
    ensures forall k :: 0 <= k < |sections| ==>
      Flatten(sections[k].groups) == sections[k].entries && IsNewestFirst(sections[k].entries)
  {
    EveryChatIsOwnedOnce(projects, resolved, direct, entries);
    SectionsHoldTheOwned(projects, resolved, direct, entries, sections, |projects|, now, startOfDay);
    assert sections[..|projects|] == sections;
    forall k | 0 <= k < |sections|
      ensures Flatten(sections[k].groups) == sections[k].entries && IsNewestFirst(sections[k].entries)
    {
      var chats := Owned(projects, resolved, direct, entries, projects[k]);
      assert IsSectionFor(sections[k], projects[k], chats, now, startOfDay);
      SortedIsNewestFirst(chats);
      SortingAgainChangesNothing(NewestFirst(chats));
      GroupsAreTheEntries(startOfDay, now, NewestFirst(chats));
    }
  }
}
