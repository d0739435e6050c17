/** What a manifest says, field by field: it is accepted exactly if it says a package that is in order. */
module ManifestReads {
  import opened Basics
  import opened Manifest
  import opened ManifestMeaning
  import opened ManifestAgain

  // ---------- Texts and lists ----------

  predicate ReadsText(v: Json, s: string) {
    v.Text? && s == Trim(v.s)
  }

  predicate IsBlank(v: Json) {
    !v.Text? || Trim(v.s) == ""
  }

  /** As much of the text as may be kept; nothing of a blank one. */
  predicate ReadsClipped(v: Json, o: Option<string>, max: nat) {
    if IsBlank(v) then o == None
    else o == Some(if |Trim(v.s)| <= max then Trim(v.s) else Trim(v.s)[..max])
  }

  /** What a list holds, each thing once, in the order of their first appearance. */
  ghost predicate AreFirsts<T(!new)>(all: seq<T>, firsts: seq<T>) {
    && (forall i, j :: 0 <= i < j < |firsts| ==> firsts[i] != firsts[j])
    && (forall x :: x in all <==> x in firsts)
    && (forall i, j :: 0 <= i < j < |firsts| ==> ComesBefore(all, firsts[i], firsts[j]))
  }

  ghost predicate ComesBefore<T>(all: seq<T>, x: T, y: T) {
    exists m: nat :: m < |all| && all[m] == x && y !in all[..m]
  }

  lemma InPrefix<T>(all: seq<T>, m: nat, n: nat)
    requires m < n <= |all|
    ensures all[m] in all[..n]
  {
    assert all[..n][m] == all[m];
  }

  lemma NotBoth<T>(all: seq<T>, x: T, y: T)
    requires x != y && ComesBefore(all, x, y)
    ensures !ComesBefore(all, y, x)
  {
    var m: nat :| m < |all| && all[m] == x && y !in all[..m];
    forall n: nat | n < |all| && all[n] == y ensures n > m {
      if n < m {
        InPrefix(all, n, m);
      }
    }
    forall n: nat | m < n < |all| ensures x in all[..n] {
      InPrefix(all, m, n);
    }
  }

  lemma NextFirst<T(!new)>(all: seq<T>, a: seq<T>, b: seq<T>, k: nat)
    requires AreFirsts(all, a) && AreFirsts(all, b) && k < |a| && k < |b| && a[..k] == b[..k]
    ensures a[k] == b[k] || ComesBefore(all, a[k], b[k])
  {
    forall i | 0 <= i < k ensures a[i] == b[i] {
      assert a[..k][i] == b[..k][i];
    }
    assert b[k] in all;
    var j :| 0 <= j < |a| && a[j] == b[k];
  }

  lemma {:induction false} FirstsAgree<T(!new)>(all: seq<T>, a: seq<T>, b: seq<T>, n: nat)
    requires AreFirsts(all, a) && AreFirsts(all, b) && n <= |a| && n <= |b|
    ensures a[..n] == b[..n]
  {
    if n > 0 {
      var k := n - 1;
      FirstsAgree(all, a, b, k);
      NextFirst(all, a, b, k);
      NextFirst(all, b, a, k);
      if a[k] != b[k] {
        NotBoth(all, a[k], b[k]);
      }
    }
  }

  lemma NoMoreFirsts<T(!new)>(all: seq<T>, a: seq<T>, b: seq<T>)
    requires AreFirsts(all, a) && AreFirsts(all, b) && |a| <= |b|
    ensures |a| == |b|
  {
    FirstsAgree(all, a, b, |a|);
    forall i | 0 <= i < |a| ensures a[i] == b[i] {
      assert a[..|a|][i] == b[..|a|][i];
    }
    if b != [] {
      StandsInBoth(all, a, b, |b| - 1);
    }
  }

  lemma StandsInBoth<T(!new)>(all: seq<T>, a: seq<T>, b: seq<T>, i: nat)
    requires AreFirsts(all, a) && AreFirsts(all, b) && i < |b| && |a| <= |b|
    requires forall k :: 0 <= k < |a| ==> a[k] == b[k]
    ensures i < |a|
  {
    assert b[i] in all;
    var k :| 0 <= k < |a| && a[k] == b[i];
  }

  lemma FirstsAreUnique<T(!new)>(all: seq<T>, a: seq<T>, b: seq<T>)
    requires AreFirsts(all, a) && AreFirsts(all, b)
    ensures a == b
  {
    if |a| <= |b| {
      NoMoreFirsts(all, a, b);
    } else {
      NoMoreFirsts(all, b, a);
    }
    FirstsAgree(all, a, b, |a|);
  }

  lemma OneMoreFirst<T(!new)>(all: seq<T>, firsts: seq<T>, x: T)
    requires AreFirsts(all, firsts)
    ensures AreFirsts(all + [x], if x in firsts then firsts else firsts + [x])
  {
    var more := if x in firsts then firsts else firsts + [x];
    forall i, j | 0 <= i < j < |more| ensures ComesBefore(all + [x], more[i], more[j]) {
      if j < |firsts| {
        var m: nat :| m < |all| && all[m] == firsts[i] && firsts[j] !in all[..m];
        assert (all + [x])[..m] == all[..m];
      } else {
        assert firsts[i] in all && x !in all;
        var m: nat :| m < |all| && all[m] == firsts[i];
        assert (all + [x])[..m] == all[..m];
      }
    }
  }

  // ---------- Contexts and permissions ----------

  ghost predicate NamesKinds(items: seq<Json>, all: seq<ContextKind>) {
    |all| == |items| && forall i :: 0 <= i < |items| ==> items[i] == Text(KindName(all[i]))
  }

  /** Without a list, all kinds. */
  ghost predicate ReadsKinds(v: Json, kinds: seq<ContextKind>) {
    || (v.Absent? && kinds == [Personal, Company, Project])
    || (v.List? && v.items != [] && exists all :: NamesKinds(v.items, all) && AreFirsts(all, kinds))
  }

  ghost predicate AreTexts(items: seq<Json>, all: seq<string>) {
    |all| == |items| && forall i :: 0 <= i < |items| ==> items[i] == Text(all[i])
  }

  ghost predicate ReadsPermissions(v: Json, permissions: seq<string>) {
    || (v.Absent? && permissions == [])
    || (v.List? && exists all :: AreTexts(v.items, all) && AreFirsts(all, permissions))
  }

  lemma OneMoreKind(items: seq<Json>, all: seq<ContextKind>, kind: ContextKind)
    requires AreFirsts(all, Kinds(items))
    ensures AreFirsts(all + [kind], Kinds(items + [Text(KindName(kind))]))
  {
    var x := Text(KindName(kind));
    KindAgain(kind);
    OneMoreFirst(all, Kinds(items), kind);
    assert (items + [x])[..|items|] == items;
    assert Kinds(items + [x]) == if kind in Kinds(items) then Kinds(items) else Kinds(items) + [kind];
  }

  lemma {:induction false} KindsAreFirsts(items: seq<Json>, all: seq<ContextKind>)
    requires NamesKinds(items, all)
    ensures AreFirsts(all, Kinds(items))
  {
    if items != [] {
      var n := |items| - 1;
      KindsAreFirsts(items[..n], all[..n]);
      OneMoreKind(items[..n], all[..n], all[n]);
      assert all[..n] + [all[n]] == all && items[..n] + [Text(KindName(all[n]))] == items;
    }
  }

  lemma OneMoreText(items: seq<Json>, all: seq<string>, s: string)
    requires AreFirsts(all, Unrepeated(items))
    ensures AreFirsts(all + [s], Unrepeated(items + [Text(s)]))
  {
    OneMoreFirst(all, Unrepeated(items), s);
    assert (items + [Text(s)])[..|items|] == items;
    assert Unrepeated(items + [Text(s)])
        == if s in Unrepeated(items) then Unrepeated(items) else Unrepeated(items) + [s];
  }

  lemma {:induction false} UnrepeatedAreFirsts(items: seq<Json>, all: seq<string>)
    requires AreTexts(items, all)
    ensures AreFirsts(all, Unrepeated(items))
  {
    if items != [] {
      var n := |items| - 1;
      UnrepeatedAreFirsts(items[..n], all[..n]);
      OneMoreText(items[..n], all[..n], all[n]);
      assert all[..n] + [all[n]] == all && items[..n] + [Text(all[n])] == items;
    }
  }

  function NamedKinds(items: seq<Json>): (all: seq<ContextKind>)
    ensures |all| == |items| && forall i :: 0 <= i < |items| ==> all[i] == KindOf(items[i])
  {
    seq(|items|, i requires 0 <= i < |items| => KindOf(items[i]))
  }

  lemma KindNameIs(v: Json)
    requires IsKindName(v)
    ensures v == Text(KindName(KindOf(v)))
  {
    var k :| v.s == KindName(k);
    KindAgain(k);
  }

  lemma ContextsIff(v: Json, kinds: seq<ContextKind>)
    ensures ReadsKinds(v, kinds) <==> AreContexts(v, false) && kinds == ContextsOf(v)
  {
    if v.List? {
      if all :| NamesKinds(v.items, all) && AreFirsts(all, kinds) {
        KindsAreFirsts(v.items, all);
        FirstsAreUnique(all, kinds, Kinds(v.items));
        forall x <- v.items ensures IsKindName(x) {
          var i :| 0 <= i < |v.items| && v.items[i] == x;
          KindAgain(all[i]);
        }
      }
      if AreContexts(v, false) {
        forall x <- v.items { KindNameIs(x); }
        assert NamesKinds(v.items, NamedKinds(v.items));
        KindsAreFirsts(v.items, NamedKinds(v.items));
      }
    }
  }

  function TextsIn(items: seq<Json>): (all: seq<string>)
    ensures |all| == |items| && forall i :: 0 <= i < |items| && items[i].Text? ==> all[i] == items[i].s
  {
    seq(|items|, i requires 0 <= i < |items| => if items[i].Text? then items[i].s else "")
  }

  /** Every permission that is listed is known, and they are those that are read. */
  lemma PermissionsIff(rules: Rules, v: Json, permissions: seq<string>)
    ensures ReadsPermissions(v, permissions) && (forall x <- permissions :: x in rules.permissions)
            <==> ArePermissions(rules, v) && permissions == PermissionsOf(v)
  {
    if v.List? {
      if all :| AreTexts(v.items, all) && AreFirsts(all, permissions) {
        UnrepeatedAreFirsts(v.items, all);
        FirstsAreUnique(all, permissions, Unrepeated(v.items));
        forall x <- v.items ensures x.Text? && x.s in permissions {
          var i :| 0 <= i < |v.items| && v.items[i] == x;
          assert all[i] in all;
        }
      }
      if ArePermissions(rules, v) {
        assert forall i :: 0 <= i < |v.items| ==> IsPermission(rules, v.items[i]);
        var all := TextsIn(v.items);
        assert AreTexts(v.items, all);
        UnrepeatedAreFirsts(v.items, all);
        forall x <- Unrepeated(v.items) ensures x in rules.permissions {
          var i :| 0 <= i < |all| && all[i] == x;
          assert IsPermission(rules, v.items[i]);
        }
      }
    }
  }

  // ---------- Lists of one thing after the other ----------

  lemma {:induction false} BuiltAt(kind: ContributionKind, items: seq<Json>, i: nat)
    requires (forall x <- items :: x.Object?) && i <= |items|
    ensures |Built(kind, items)| == |items|
    ensures i < |items| ==> Built(kind, items)[i] == ContributionOf(kind, items[i])
  {
    if items != [] {
      var before, x := items[..|items| - 1], items[|items| - 1];
      assert x in items && forall y <- before :: y in items;
      BuiltAt(kind, before, if i < |before| then i else |before|);
      assert Built(kind, items) == Built(kind, before) + [ContributionOf(kind, x)];
    }
  }

  lemma BuiltEach(kind: ContributionKind, items: seq<Json>)
    requires forall x <- items :: x.Object?
    ensures |Built(kind, items)| == |items|
    ensures forall i :: 0 <= i < |items| ==> Built(kind, items)[i] == ContributionOf(kind, items[i])
  {
    BuiltAt(kind, items, |items|);
    forall i | 0 <= i < |items| ensures Built(kind, items)[i] == ContributionOf(kind, items[i]) {
      BuiltAt(kind, items, i);
    }
  }

  lemma {:induction false} SettingsEach(items: seq<Json>)
    requires forall x <- items :: x.Object?
    ensures |Settings(items)| == |items|
    ensures forall i :: 0 <= i < |items| ==> Settings(items)[i] == SettingOf(items[i])
  {
    if items != [] {
      var before, x := items[..|items| - 1], items[|items| - 1];
      assert x in items;
      SettingsEach(before);
      SettingsOneMore(before, x);
      assert before + [x] == items;
    }
  }

  lemma {:induction false} ActionsEach(items: seq<Json>)
    ensures |Actions(items)| == |items|
    ensures forall i :: 0 <= i < |items| ==> Actions(items)[i] == ActionOf(items[i])
  {
    if items != [] {
      ActionsEach(items[..|items| - 1]);
    }
  }

  lemma {:induction false} TextsEach(items: seq<Json>)
    requires forall x <- items :: x.Text?
    ensures |Texts(items)| == |items|
    ensures forall i :: 0 <= i < |items| ==> Texts(items)[i] == items[i].s
  {
    if items != [] {
      assert items[|items| - 1] in items;
      TextsEach(items[..|items| - 1]);
    }
  }

  // ---------- Keywords ----------

  /** The texts that are not blank, in their order, each as far as it is kept. */
  ghost predicate AreKept(items: seq<Json>, at: seq<nat>, all: seq<string>) {
    && |at| == |all|
    && (forall k :: 0 <= k < |at| ==> at[k] < |items| && !IsBlank(items[at[k]]))
    && (forall k :: 0 <= k < |at| ==> ReadsClipped(items[at[k]], Some(all[k]), 64))
    && (forall j, k :: 0 <= j < k < |at| ==> at[j] < at[k])
    && (forall i: nat :: i < |items| && !IsBlank(items[i]) ==> i in at)
  }

  /** Of more than 32 the first 32. */
  ghost predicate ReadsKeywords(v: Json, keywords: seq<string>) {
    if !v.List? then keywords == []
    else exists at, all :: AreKept(v.items, at, all) && keywords == if |all| <= 32 then all else all[..32]
  }

  lemma BlankIsLeft(items: seq<Json>, at: seq<nat>, all: seq<string>, x: Json)
    requires AreKept(items, at, all) && IsBlank(x)
    ensures AreKept(items + [x], at, all)
  {
    var more := items + [x];
    forall i: nat | i < |more| && !IsBlank(more[i]) ensures i in at {
      assert i < |items| && more[i] == items[i];
    }
  }

  lemma OneMoreKept(items: seq<Json>, at: seq<nat>, all: seq<string>, x: Json, text: string)
    requires AreKept(items, at, all) && !IsBlank(x) && ReadsClipped(x, Some(text), 64)
    ensures AreKept(items + [x], at + [|items|], all + [text])
  {
    var more, at' := items + [x], at + [|items|];
    forall i: nat | i < |more| && !IsBlank(more[i]) ensures i in at' {
      if i < |items| {
        assert !IsBlank(items[i]) && i in at;
      } else {
        assert at'[|at|] == i;
      }
    }
  }

  lemma {:induction false} KeptIn(items: seq<Json>) returns (at: seq<nat>)
    ensures AreKept(items, at, Keywords(items))
  {
    at := [];
    if items != [] {
      var before, x := items[..|items| - 1], items[|items| - 1];
      at := KeptIn(before);
      assert before + [x] == items;
      if IsBlank(x) {
        BlankIsLeft(before, at, Keywords(before), x);
        assert Keywords(items) == Keywords(before);
      } else {
        OneMoreKept(before, at, Keywords(before), x, Clipped(x, 64).value);
        assert Keywords(items) == Keywords(before) + [Clipped(x, 64).value];
        at := at + [|before|];
      }
    }
  }

  lemma OneMoreAgrees<T>(a: seq<T>, b: seq<T>, k: nat)
    requires k < |a| && k < |b| && a[..k] == b[..k] && a[k] == b[k]
    ensures a[..k + 1] == b[..k + 1]
  {
    assert a[..k + 1] == a[..k] + [a[k]] && b[..k + 1] == b[..k] + [b[k]];
  }

  /** The place of a kept text is the only thing to choose, and there is no choice. */
  lemma {:induction false} PlacesAgree(items: seq<Json>, at: seq<nat>, all: seq<string>, at': seq<nat>,
                                       all': seq<string>, n: nat)
    requires AreKept(items, at, all) && AreKept(items, at', all') && n <= |at| && n <= |at'|
    ensures at[..n] == at'[..n]
    decreases n
  {
    if n > 0 {
      var k := n - 1;
      PlacesAgree(items, at, all, at', all', k);
      forall j | 0 <= j < k ensures at[j] == at'[j] {
        assert at[..k][j] == at'[..k][j];
      }
      NextPlace(items, at, all, at', all', k);
      NextPlace(items, at', all', at, all, k);
      OneMoreAgrees(at, at', k);
    }
  }

  lemma NextPlace(items: seq<Json>, at: seq<nat>, all: seq<string>, at': seq<nat>, all': seq<string>, k: nat)
    requires AreKept(items, at, all) && AreKept(items, at', all') && k < |at| && k < |at'|
    requires forall j :: 0 <= j < k ==> at[j] == at'[j]
    ensures at[k] <= at'[k]
  {
    assert at'[k] in at;
    var j :| 0 <= j < |at| && at[j] == at'[k];
    assert forall i :: 0 <= i < k ==> at'[i] < at'[k];
  }

  lemma NoMorePlaces(items: seq<Json>, at: seq<nat>, all: seq<string>, at': seq<nat>, all': seq<string>)
    requires AreKept(items, at, all) && AreKept(items, at', all') && |at| <= |at'|
    ensures |at| == |at'|
  {
    PlacesAgree(items, at, all, at', all', |at|);
    forall j | 0 <= j < |at| ensures at[j] == at'[j] {
      assert at[..|at|][j] == at'[..|at|][j];
    }
    if at' != [] {
      KeptInBoth(items, at, all, at', all', |at'| - 1);
    }
  }

  lemma KeptInBoth(items: seq<Json>, at: seq<nat>, all: seq<string>, at': seq<nat>, all': seq<string>, i: nat)
    requires AreKept(items, at, all) && AreKept(items, at', all') && i < |at'| && |at| <= |at'|
    requires forall k :: 0 <= k < |at| ==> at[k] == at'[k]
    ensures i < |at|
  {
    assert at'[i] in at;
    var k :| 0 <= k < |at| && at[k] == at'[i];
  }

  lemma KeptAreUnique(items: seq<Json>, at: seq<nat>, all: seq<string>, at': seq<nat>, all': seq<string>)
    requires AreKept(items, at, all) && AreKept(items, at', all')
    ensures all == all'
  {
    if |at| <= |at'| {
      NoMorePlaces(items, at, all, at', all');
    } else {
      NoMorePlaces(items, at', all', at, all);
    }
    PlacesAgree(items, at, all, at', all', |at|);
    assert at[..|at|] == at && at'[..|at|] == at';
    forall k | 0 <= k < |all| ensures all[k] == all'[k] {
      assert ReadsClipped(items[at[k]], Some(all[k]), 64) && ReadsClipped(items[at'[k]], Some(all'[k]), 64);
    }
  }

  lemma KeywordsIff(v: Json, keywords: seq<string>)
    ensures ReadsKeywords(v, keywords) <==> keywords == KeywordsOf(v)
  {
    if v.List? {
      var at := KeptIn(v.items);
      if at', all :| AreKept(v.items, at', all) && keywords == if |all| <= 32 then all else all[..32] {
        KeptAreUnique(v.items, at, Keywords(v.items), at', all);
      }
    }
  }
}
