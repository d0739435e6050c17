/** What holds of every accepted manifest, and what validating it again makes of it. */
module ManifestMeaning {
  import opened Basics
  import opened Manifest

  // ---------- Trimmed and clipped texts ----------

  /** Visible at both ends. */
  predicate IsTrimmed(s: string) {
    s != "" && !IsSpace(s[0]) && !IsSpace(s[|s| - 1])
  }

  lemma {:induction false} TrimEndIsVisible(s: string)
    ensures TrimEnd(s) <= s
    ensures TrimEnd(s) != "" ==> !IsSpace(TrimEnd(s)[|TrimEnd(s)| - 1])
    ensures s != "" && !IsSpace(s[0]) ==> TrimEnd(s) != ""
  {
    if s != "" && IsSpace(s[|s| - 1]) {
      TrimEndIsVisible(s[..|s| - 1]);
    }
  }

  lemma {:induction false} TrimStartIsVisible(s: string)
    ensures TrimStart(s) != "" ==> !IsSpace(TrimStart(s)[0])
  {
    if s != "" && IsSpace(s[0]) {
      TrimStartIsVisible(s[1..]);
    }
  }

  lemma TrimIsTrimmed(s: string)
    ensures Trim(s) != "" ==> IsTrimmed(Trim(s))
  {
    TrimStartIsVisible(s);
    TrimEndIsVisible(TrimStart(s));
  }

  lemma TrimmedStays(s: string)
    requires IsTrimmed(s)
    ensures Trim(s) == s
  {
  }

  /** A text that is visible at both ends, fits and has the form reads as it is. */
  lemma TextStays(s: string, max: nat, pattern: string -> bool)
    requires IsTrimmed(s) && |s| <= max && pattern(s)
    ensures IsText(Text(s), max, pattern) && TextOf(Text(s)) == s
  {
    TrimmedStays(s);
  }

  /** A clipped text starts visibly, but the cut may leave white space at its end. */
  predicate IsClip(o: Option<string>, max: nat) {
    o.Some? ==> o.value != "" && !IsSpace(o.value[0]) && |o.value| <= max
  }

  /** What clipping makes of a clipped text. */
  function Again(o: Option<string>, max: nat): Option<string> {
    match o
    case None => None
    case Some(s) => Clipped(Text(s), max)
  }

  lemma ClippedIsClip(v: Json, max: nat)
    requires max > 0
    ensures IsClip(Clipped(v, max), max)
  {
    if v.Text? {
      TrimIsTrimmed(v.s);
    }
  }

  /** Reading a clipped text again only takes off white space at its end, once and for all. */
  lemma ClipAgain(o: Option<string>, max: nat)
    requires IsClip(o, max)
    ensures IsClip(Again(o, max), max) && Again(o, max).Some? == o.Some?
    ensures Again(Again(o, max), max) == Again(o, max)
    ensures Again(o, max) == o <==> (o.Some? ==> IsTrimmed(o.value))
  {
    if o.Some? {
      TrimEndIsVisible(o.value);
      TrimIsTrimmed(o.value);
      var t := Trim(o.value);
      assert t == TrimEnd(o.value);
      TrimmedStays(t);
      if IsTrimmed(o.value) {
        TrimmedStays(o.value);
      }
    }
  }

  // ---------- Contexts ----------

  predicate AreKinds(kinds: seq<ContextKind>) {
    kinds != [] && forall i, j :: 0 <= i < j < |kinds| ==> kinds[i] != kinds[j]
  }

  function EncodeKinds(kinds: seq<ContextKind>): (items: seq<Json>)
    ensures |items| == |kinds|
    ensures forall i :: 0 <= i < |items| ==> items[i] == Text(KindName(kinds[i]))
  {
    seq(|kinds|, i requires 0 <= i < |kinds| => Text(KindName(kinds[i])))
  }

  lemma {:induction false} KindsAreDistinct(items: seq<Json>)
    ensures forall i, j :: 0 <= i < j < |Kinds(items)| ==> Kinds(items)[i] != Kinds(items)[j]
    ensures items != [] ==> Kinds(items) != []
  {
    if items != [] {
      KindsAreDistinct(items[..|items| - 1]);
    }
  }

  lemma ContextsAreKinds(v: Json, required: bool)
    requires AreContexts(v, required)
    ensures AreKinds(ContextsOf(v))
  {
    if v.List? {
      KindsAreDistinct(v.items);
    }
  }

  lemma KindsOneMore(items: seq<Json>, x: Json)
    requires KindOf(x) !in Kinds(items)
    ensures Kinds(items + [x]) == Kinds(items) + [KindOf(x)]
  {
    assert (items + [x])[..|items|] == items;
  }

  lemma OneMoreEncodedKind(kinds: seq<ContextKind>, n: nat)
    requires 0 < n <= |kinds|
    ensures EncodeKinds(kinds)[..n] == EncodeKinds(kinds)[..n - 1] + [Text(KindName(kinds[n - 1]))]
    ensures kinds[..n] == kinds[..n - 1] + [kinds[n - 1]]
  {
  }

  lemma KindAgain(kind: ContextKind)
    ensures IsKindName(Text(KindName(kind))) && KindOf(Text(KindName(kind))) == kind
  {
  }

  lemma {:induction false} KindsStay(kinds: seq<ContextKind>, n: nat)
    requires n <= |kinds| && forall i, j :: 0 <= i < j < |kinds| ==> kinds[i] != kinds[j]
    ensures Kinds(EncodeKinds(kinds)[..n]) == kinds[..n]
  {
    if n > 0 {
      KindsStay(kinds, n - 1);
      KindAgain(kinds[n - 1]);
      KindsOneMore(EncodeKinds(kinds)[..n - 1], Text(KindName(kinds[n - 1])));
      OneMoreEncodedKind(kinds, n);
    }
  }

  lemma ContextsStay(kinds: seq<ContextKind>, required: bool)
    requires AreKinds(kinds)
    ensures AreContexts(List(EncodeKinds(kinds)), required) && ContextsOf(List(EncodeKinds(kinds))) == kinds
  {
    KindsStay(kinds, |kinds|);
    assert EncodeKinds(kinds)[..|kinds|] == EncodeKinds(kinds) && kinds[..|kinds|] == kinds;
    forall x | x in EncodeKinds(kinds) ensures IsKindName(x) {
      var i :| 0 <= i < |kinds| && EncodeKinds(kinds)[i] == x;
      KindAgain(kinds[i]);
    }
  }

  // ---------- One contribution ----------

  predicate IsPlain(s: string, max: nat) {
    IsTrimmed(s) && |s| <= max
  }

  predicate IsPlainId(rules: Rules, id: string) {
    Trim(id) == id && rules.isContributionId(id)
  }

  predicate IsBuiltAction(rules: Rules, a: Action) {
    IsPlainId(rules, a.id) && IsPlain(a.title, 128) && a.host in rules.hosts
  }

  predicate IsBuiltView(rules: Rules, c: Contribution)
    requires c.View?
  {
    && (forall a <- c.actions :: IsBuiltAction(rules, a))
    && (c.refreshIntervalMs.Some? ==> 2_000 <= c.refreshIntervalMs.value <= 60_000)
    && (c.viewHost.Some? ==> c.viewHost.value in rules.hosts)
    && IsClip(c.itemBodyKey, 64)
    && if c.viewKind.WebView? then
         c.itemTitleKey == None && c.itemBodyKey == None
         && c.entry.Some? && IsTrimmed(c.entry.value) && rules.isEntryPath(c.entry.value)
       else
         c.viewHost.Some? && c.entry == None && c.itemTitleKey.Some? && IsPlain(c.itemTitleKey.value, 64)
  }

  predicate AreClips(keywords: seq<string>) {
    |keywords| <= 32 && forall k <- keywords :: IsClip(Some(k), 64)
  }

  /** What every contribution of an accepted package is like. */
  predicate IsBuilt(rules: Rules, declared: seq<ContextKind>, kind: ContributionKind, c: Contribution) {
    && IsPlainId(rules, c.id) && IsPlain(c.title, 128)
    && AreKinds(c.contexts) && (declared == [] || forall k <- c.contexts :: k in declared)
    && IsClip(c.description, 500)
    && match kind
       case ToolKind => c.Tool? && IsPlain(c.toolName, 128)
       case SkillKind => c.Skill? && IsPlain(c.instructions, 16_000)
       case CommandKind =>
         c.Command? && c.host in rules.hosts && AreClips(c.keywords)
         && (c.openViewId.Some? ==> IsTrimmed(c.openViewId.value))
       case ViewsKind => c.View? && IsBuiltView(rules, c)
       case WorkflowKind => c.Workflow? && IsPlain(c.pluginId, 128)
  }

  lemma {:induction false} KeywordsAreClips(items: seq<Json>)
    ensures forall k <- Keywords(items) :: IsClip(Some(k), 64)
  {
    if items != [] {
      KeywordsAreClips(items[..|items| - 1]);
      ClippedIsClip(items[|items| - 1], 64);
    }
  }

  lemma {:induction false} ActionsAreBuilt(rules: Rules, items: seq<Json>)
    requires forall x <- items :: IsAction(rules, x)
    ensures forall a <- Actions(items) :: IsBuiltAction(rules, a)
  {
    if items != [] {
      var x := items[|items| - 1];
      assert IsAction(rules, x);
      ActionsAreBuilt(rules, items[..|items| - 1]);
      IdIsPlain(rules, x.item.id);
      TrimIsTrimmed(x.item.title.s);
    }
  }

  lemma IdIsPlain(rules: Rules, v: Json)
    requires IsId(rules, v)
    ensures IsPlainId(rules, TextOf(v))
  {
    TrimIsTrimmed(v.s);
    if TextOf(v) != "" {
      TrimmedStays(TextOf(v));
    }
  }

  lemma ViewIsBuilt(rules: Rules, item: Item, id: string, title: string, contexts: seq<ContextKind>,
                    description: Option<string>)
    requires IsView(rules, item)
    ensures IsBuiltView(rules, ViewOf(id, title, contexts, description, item))
  {
    if item.actions.List? {
      ActionsAreBuilt(rules, item.actions.items);
    }
    ClippedIsClip(item.itemBodyKey, 64);
    if ViewKindOf(item.kind).WebView? {
      TrimIsTrimmed(item.entry.s);
    } else {
      TrimIsTrimmed(item.itemTitleKey.s);
    }
  }

  lemma BuiltFrom(rules: Rules, declared: seq<ContextKind>, kind: ContributionKind, v: Json)
    requires IsContribution(rules, declared, kind, v)
    ensures IsBuilt(rules, declared, kind, ContributionOf(kind, v))
  {
    var item := v.item;
    IdIsPlain(rules, item.id);
    TrimIsTrimmed(item.title.s);
    ContextsAreKinds(item.contexts, false);
    ClippedIsClip(item.description, 500);
    match kind
    case ToolKind => TrimIsTrimmed(item.toolName.s);
    case SkillKind => TrimIsTrimmed(item.instructions.s);
    case CommandKind =>
      if item.keywords.List? {
        KeywordsAreClips(item.keywords.items);
        assert forall k <- KeywordsOf(item.keywords) :: k in Keywords(item.keywords.items);
      }
      if item.openViewId.Text? {
        TrimIsTrimmed(item.openViewId.s);
      }
    case ViewsKind => ViewIsBuilt(rules, item, TextOf(item.id), TextOf(item.title), ContextsOf(item.contexts),
                                  Clipped(item.description, 500));
    case WorkflowKind => TrimIsTrimmed(item.pluginId.s);
  }

  lemma {:induction false} AllBuilt(rules: Rules, declared: seq<ContextKind>, kind: ContributionKind, items: seq<Json>)
    requires forall x <- items :: IsContribution(rules, declared, kind, x)
    ensures forall c <- Built(kind, items) :: IsBuilt(rules, declared, kind, c)
  {
    if items != [] {
      AllBuilt(rules, declared, kind, items[..|items| - 1]);
      BuiltFrom(rules, declared, kind, items[|items| - 1]);
    }
  }

  // ---------- Soundness ----------

  /** A contribution's contexts lie inside those of every host it names, and every host is known. */
  predicate IsHostedWell(rules: Rules, c: Contribution) {
    forall host <- HostsOf(c) :: host in rules.hosts && forall k <- c.contexts :: k in rules.hosts[host].contexts
  }

  /** What an accepted package promises. */
  predicate IsSound(rules: Rules, p: Package) {
    var c := p.contributions;
    && AreDistinct(PackageIds(c))
    && (forall x <- c.tools :: IsBuilt(rules, p.contexts, ToolKind, x))
    && (forall x <- c.skills :: IsBuilt(rules, p.contexts, SkillKind, x))
    && (forall x <- c.commands ::
          && IsBuilt(rules, p.contexts, CommandKind, x) && IsHostedWell(rules, x)
          && (x.openViewId.Some? ==> exists i :: 0 <= i < |c.views| && c.views[i].id == x.openViewId.value))
    && (forall x <- c.views :: IsBuilt(rules, p.contexts, ViewsKind, x) && IsHostedWell(rules, x))
    && (forall x <- c.workflows :: IsBuilt(rules, p.contexts, WorkflowKind, x))
    && AreKinds(p.contexts) && Total(c) > 0
    && (c.tools != [] ==> p.executable.Some?)
  }

  lemma {:induction false} ActionHostsAreKnown(rules: Rules, actions: seq<Action>)
    requires forall a <- actions :: IsBuiltAction(rules, a)
    ensures forall host <- ActionHosts(actions) :: host in rules.hosts
  {
    if actions != [] {
      ActionHostsAreKnown(rules, actions[..|actions| - 1]);
      assert IsBuiltAction(rules, actions[|actions| - 1]);
    }
  }

  lemma HostedWell(rules: Rules, declared: seq<ContextKind>, kind: ContributionKind, c: Contribution)
    requires IsBuilt(rules, declared, kind, c) && HostsSupport(rules, c)
    ensures IsHostedWell(rules, c)
  {
    if c.View? {
      ActionHostsAreKnown(rules, c.actions);
    }
  }

  lemma ListIsBuilt(rules: Rules, declared: seq<ContextKind>, kind: ContributionKind, v: Json)
    requires AreContributions(rules, declared, kind, v)
    ensures forall c <- BuiltOf(kind, v) :: IsBuilt(rules, declared, kind, c)
  {
    if v.List? {
      AllBuilt(rules, declared, kind, v.items);
    }
  }

  /** Whatever is accepted keeps its promises: ids differ across all kinds and view actions, contexts lie
      inside the package's and the hosts', every view that is opened exists, and tools come with a runtime. */
  lemma AcceptedIsSound(rules: Rules, raw: RawManifest)
    requires IsAcceptable(rules, raw)
    ensures IsSound(rules, PackageOf(raw))
  {
    var declared, given, c := ContextsOf(raw.contexts), raw.contributions, ContributionsOf(raw.contributions);
    ContextsAreKinds(raw.contexts, true);
    ListIsBuilt(rules, declared, ToolKind, given.tools);
    ListIsBuilt(rules, declared, SkillKind, given.skills);
    ListIsBuilt(rules, declared, CommandKind, given.commands);
    ListIsBuilt(rules, declared, ViewsKind, given.views);
    ListIsBuilt(rules, declared, WorkflowKind, given.workflows);
    forall x | x in c.commands ensures IsHostedWell(rules, x) {
      HostedWell(rules, declared, CommandKind, x);
    }
    forall x | x in c.views ensures IsHostedWell(rules, x) {
      HostedWell(rules, declared, ViewsKind, x);
    }
  }

  // ---------- Permissions ----------

  /** Some host that the package names asks for the permission, or its workflows do. */
  ghost predicate Needs(rules: Rules, p: Package, permission: string) {
    || NeededFor(rules, p.contributions.commands + p.contributions.views, permission)
    || (p.contributions.workflows != [] && permission == "workflow.read")
  }

  ghost predicate NeededFor(rules: Rules, cs: seq<Contribution>, permission: string) {
    exists c, host :: c in cs && host in HostsOf(c) && host in rules.hosts && rules.hosts[host].permission == permission
  }

  lemma NeededOneMore(rules: Rules, cs: seq<Contribution>, c: Contribution, permission: string)
    requires IsHostedWell(rules, c)
    ensures NeededFor(rules, cs + [c], permission)
            <==> NeededFor(rules, cs, permission) || permission in PermissionsFor(rules, HostsOf(c))
  {
    if permission in PermissionsFor(rules, HostsOf(c)) {
      var host :| host in HostsOf(c) && host in rules.hosts && rules.hosts[host].permission == permission;
      assert c in cs + [c];
    }
    if x, host :| x in cs && host in HostsOf(x) && host in rules.hosts && rules.hosts[host].permission == permission {
      assert x in cs + [c];
    }
  }

  ghost function PermissionsFor(rules: Rules, hosts: seq<string>): set<string> {
    set host | host in hosts && host in rules.hosts :: rules.hosts[host].permission
  }

  method PermissionsOfHosts(rules: Rules, hosts: seq<string>) returns (permissions: set<string>)
    requires forall host <- hosts :: host in rules.hosts
    ensures permissions == PermissionsFor(rules, hosts)
  {
    permissions := {};
    for j := 0 to |hosts|
      invariant permissions == PermissionsFor(rules, hosts[..j])
    {
      assert hosts[..j + 1] == hosts[..j] + [hosts[j]];
      permissions := permissions + {rules.hosts[hosts[j]].permission};
    }
    assert hosts[..|hosts|] == hosts;
  }

  method RequiredPermissions(rules: Rules, p: Package) returns (required: set<string>)
    requires IsSound(rules, p)
    ensures forall permission :: permission in required <==> Needs(rules, p, permission)
  {
    var cs := p.contributions.commands + p.contributions.views;
    required := RequiredByHosts(rules, cs);
    if p.contributions.workflows != [] {
      required := required + {"workflow.read"};
    }
  }

  method RequiredByHosts(rules: Rules, cs: seq<Contribution>) returns (required: set<string>)
    requires forall c <- cs :: IsHostedWell(rules, c)
    ensures forall permission :: permission in required <==> NeededFor(rules, cs, permission)
  {
    required := {};
    for i := 0 to |cs|
      invariant forall permission :: permission in required <==> NeededFor(rules, cs[..i], permission)
    {
      assert cs[..i + 1] == cs[..i] + [cs[i]];
      assert IsHostedWell(rules, cs[i]);
      forall permission {
        NeededOneMore(rules, cs[..i], cs[i], permission);
      }
      var more := PermissionsOfHosts(rules, HostsOf(cs[i]));
      required := required + more;
    }
    assert cs[..|cs|] == cs;
  }

  /** The permissions that are needed but not declared. */
  method PermissionIssues(rules: Rules, p: Package) returns (missing: set<string>)
    requires IsSound(rules, p)
    ensures forall permission :: permission in missing <==> Needs(rules, p, permission) && permission !in p.permissions
    ensures missing == {} <==> forall permission :: Needs(rules, p, permission) ==> permission in p.permissions
  {
    var required := RequiredPermissions(rules, p);
    missing := set permission | permission in required && permission !in p.permissions;
  }
}
