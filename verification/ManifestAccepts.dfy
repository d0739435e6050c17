/** A manifest is accepted exactly if it says, field by field, a package that is in order. */
module ManifestAccepts {
  import opened Basics
  import opened Manifest
  import opened ManifestMeaning
  import opened ManifestAgain
  import opened ManifestReads

  // ---------- What a contribution says ----------

  predicate SaysAction(v: Json, a: Action) {
    && v.Object?
    && ReadsText(v.item.id, a.id) && ReadsText(v.item.title, a.title) && v.item.host == Text(a.host)
  }

  predicate SaysActions(v: Json, actions: seq<Action>) {
    || (v.Absent? && actions == [])
    || (v.List? && |actions| == |v.items| && forall i :: 0 <= i < |actions| ==> SaysAction(v.items[i], actions[i]))
  }

  /** Only a web page can go without a host, and only it has an entry; the others name their fields. */
  predicate SaysView(item: Item, c: Contribution)
    requires c.View?
  {
    && (c.viewKind.WebView? <==> item.kind == Text("web"))
    && (c.viewKind.DetailView? <==> item.kind == Text("detail"))
    && SaysActions(item.actions, c.actions)
    && item.refreshIntervalMs == (if c.refreshIntervalMs.Some? then Number(c.refreshIntervalMs.value) else Absent)
    && (if c.viewHost.Some? then item.host == Text(c.viewHost.value)
        else item.kind == Text("web") && (item.host.Absent? || item.host.Null?))
    && if item.kind == Text("web") then
         c.entry.Some? && ReadsText(item.entry, c.entry.value) && c.itemTitleKey == None && c.itemBodyKey == None
       else
         c.entry == None && c.itemTitleKey.Some? && ReadsText(item.itemTitleKey, c.itemTitleKey.value)
         && ReadsClipped(item.itemBodyKey, c.itemBodyKey, 64)
  }

  ghost predicate SaysCommand(item: Item, c: Contribution)
    requires c.Command?
  {
    && item.host == Text(c.host) && ReadsKeywords(item.keywords, c.keywords)
    && (if IsBlank(item.openViewId) then c.openViewId == None
        else c.openViewId.Some? && ReadsText(item.openViewId, c.openViewId.value))
    && (c.startsAgent <==> item.startsAgent == Bool(true))
  }

  ghost predicate SaysBody(kind: ContributionKind, item: Item, c: Contribution) {
    match kind
    case ToolKind => c.Tool? && ReadsText(item.toolName, c.toolName)
    case SkillKind => c.Skill? && ReadsText(item.instructions, c.instructions)
    case CommandKind => c.Command? && SaysCommand(item, c)
    case ViewsKind => c.View? && SaysView(item, c)
    case WorkflowKind => c.Workflow? && ReadsText(item.pluginId, c.pluginId)
  }

  ghost predicate SaysContribution(kind: ContributionKind, v: Json, c: Contribution) {
    && v.Object?
    && ReadsText(v.item.id, c.id) && ReadsText(v.item.title, c.title) && ReadsKinds(v.item.contexts, c.contexts)
    && ReadsClipped(v.item.description, c.description, 500)
    && SaysBody(kind, v.item, c)
  }

  ghost predicate SaysAll(kind: ContributionKind, v: Json, cs: seq<Contribution>) {
    || (v.Absent? && cs == [])
    || (v.List? && |cs| == |v.items| && forall i :: 0 <= i < |cs| ==> SaysContribution(kind, v.items[i], cs[i]))
  }

  // ---------- What a manifest says ----------

  ghost predicate SaysContributions(raw: RawContributions, c: Contributions) {
    && raw.Given?
    && SaysAll(ToolKind, raw.tools, c.tools) && SaysAll(SkillKind, raw.skills, c.skills)
    && SaysAll(CommandKind, raw.commands, c.commands) && SaysAll(ViewsKind, raw.views, c.views)
    && SaysAll(WorkflowKind, raw.workflows, c.workflows)
  }

  /** A kind of value other than these three is none. */
  predicate SaysSetting(v: Json, s: Setting) {
    && v.Object?
    && ReadsText(v.item.key, s.key) && ReadsText(v.item.title, s.title) && v.item.valueType == Text(s.valueType)
    && v.item.defaultValue == s.defaultValue && ReadsClipped(v.item.description, s.description, 500)
  }

  predicate SaysSettings(v: Json, settings: seq<Setting>) {
    || (v.Absent? && settings == [])
    || (v.List? && |settings| == |v.items| && forall i :: 0 <= i < |settings| ==> SaysSetting(v.items[i], settings[i]))
  }

  /** Every entry names two variables; that of `__proto__` is then lost. */
  predicate SaysEnv(rules: Rules, raw: RawEnv, env: map<string, string>) {
    || (raw.NoEnv? && env == map[])
    || (raw.Env?
        && (forall target <- raw.entries :: target != "__proto__" ==>
              target in env && raw.entries[target] == Text(env[target]))
        && (forall target <- env :: target in raw.entries && target != "__proto__")
        && ("__proto__" in raw.entries ==>
              rules.isEnvName("__proto__") && raw.entries["__proto__"].Text?
              && rules.isEnvName(raw.entries["__proto__"].s)))
  }

  ghost predicate SaysExecutable(rules: Rules, raw: RawExecutable, r: Option<Runtime>) {
    || (raw.NoExecutable? && r == None)
    || (raw.Executable? && r.Some?
        && raw.kind == Text("mcp-stdio") && ReadsText(raw.command, r.value.command)
        && raw.args.List? && AreTexts(raw.args.items, r.value.args)
        && SaysEnv(rules, raw.env, r.value.env))
  }

  ghost predicate Says(rules: Rules, raw: RawManifest, p: Package) {
    && raw.protocol == Text("nd.extension/1") && raw.apiVersion == Number(1)
    && ReadsText(raw.id, p.id) && ReadsText(raw.name, p.name) && ReadsText(raw.description, p.description)
    && ReadsText(raw.version, p.version)
    && raw.contexts.List? && ReadsKinds(raw.contexts, p.contexts)
    && ReadsPermissions(raw.permissions, p.permissions)
    && SaysSettings(raw.settings, p.settings)
    && SaysContributions(raw.contributions, p.contributions)
    && SaysExecutable(rules, raw.executable, p.executable)
  }

  // ---------- Texts ----------

  lemma TextIff(v: Json, s: string, max: nat, pattern: string -> bool)
    ensures ReadsText(v, s) && IsPlain(s, max) && pattern(s) <==> IsText(v, max, pattern) && s == TextOf(v)
  {
    if v.Text? {
      TrimIsTrimmed(v.s);
    }
  }

  lemma IdIff(rules: Rules, v: Json, id: string)
    ensures ReadsText(v, id) && IsPlainId(rules, id) <==> IsId(rules, v) && id == TextOf(v)
  {
    if IsId(rules, v) {
      IdIsPlain(rules, v);
    }
  }

  lemma ClippedIff(v: Json, o: Option<string>, max: nat)
    requires max > 0
    ensures ReadsClipped(v, o, max) <==> o == Clipped(v, max)
    ensures IsClip(Clipped(v, max), max)
  {
    ClippedIsClip(v, max);
  }

  // ---------- Views and commands ----------

  lemma ActionIff(rules: Rules, v: Json, a: Action)
    ensures SaysAction(v, a) && IsBuiltAction(rules, a) <==> IsAction(rules, v) && a == ActionOf(v)
  {
    if v.Object? {
      IdIff(rules, v.item.id, a.id);
      TextIff(v.item.title, a.title, 128, Any);
    }
  }

  lemma ActionsIff(rules: Rules, v: Json, actions: seq<Action>)
    ensures SaysActions(v, actions) && (forall a <- actions :: IsBuiltAction(rules, a))
            <==> AreActions(rules, v) && actions == ActionsOf(v)
  {
    if v.List? {
      ActionsEach(v.items);
      if SaysActions(v, actions) && forall a <- actions :: IsBuiltAction(rules, a) {
        forall i | 0 <= i < |actions| ensures IsAction(rules, v.items[i]) && actions[i] == ActionOf(v.items[i]) {
          ActionIff(rules, v.items[i], actions[i]);
        }
      }
      if AreActions(rules, v) && actions == ActionsOf(v) {
        forall i | 0 <= i < |actions| ensures SaysAction(v.items[i], actions[i]) && IsBuiltAction(rules, actions[i]) {
          ActionIff(rules, v.items[i], actions[i]);
        }
      }
    }
  }

  lemma ViewIff(rules: Rules, item: Item, c: Contribution)
    requires c.View?
    ensures SaysView(item, c) && IsBuiltView(rules, c)
            <==> IsView(rules, item) && c == ViewOf(c.id, c.title, c.contexts, c.description, item)
  {
    ActionsIff(rules, item.actions, c.actions);
    ClippedIff(item.itemBodyKey, c.itemBodyKey, 64);
    if c.entry.Some? {
      TextIff(item.entry, c.entry.value, |c.entry.value|, rules.isEntryPath);
    }
    if c.itemTitleKey.Some? {
      TextIff(item.itemTitleKey, c.itemTitleKey.value, 64, Any);
    }
    if item.entry.Text? {
      TrimIsTrimmed(item.entry.s);
    }
  }

  lemma CommandIff(rules: Rules, item: Item, c: Contribution)
    requires c.Command?
    ensures SaysCommand(item, c) && c.host in rules.hosts
            <==> IsHost(rules, item.host)
                 && c == Assembled(CommandKind, c.id, c.title, c.contexts, c.description, item)
  {
    KeywordsIff(item.keywords, c.keywords);
  }

  /** What only contributions of this kind have. */
  lemma BodyIff(rules: Rules, kind: ContributionKind, item: Item, c: Contribution)
    requires kind.CommandKind? ==> c.Command?
    requires kind.ViewsKind? ==> c.View? && IsBuiltView(rules, c)
    requires kind.CommandKind? ==> c.host in rules.hosts
    requires kind.ToolKind? ==> c.Tool? && IsPlain(c.toolName, 128)
    requires kind.SkillKind? ==> c.Skill? && IsPlain(c.instructions, 16_000)
    requires kind.WorkflowKind? ==> c.Workflow? && IsPlain(c.pluginId, 128)
    ensures SaysBody(kind, item, c)
            <==> IsBody(rules, kind, item) && c == Assembled(kind, c.id, c.title, c.contexts, c.description, item)
  {
    match kind
    case ToolKind => TextIff(item.toolName, c.toolName, 128, Any);
    case SkillKind => TextIff(item.instructions, c.instructions, 16_000, Any);
    case CommandKind => CommandIff(rules, item, c);
    case ViewsKind => ViewIff(rules, item, c);
    case WorkflowKind => TextIff(item.pluginId, c.pluginId, 128, Any);
  }

  lemma BaseIff(rules: Rules, item: Item, c: Contribution)
    requires IsPlainId(rules, c.id) && IsPlain(c.title, 128)
    ensures ReadsText(item.id, c.id) <==> IsId(rules, item.id) && c.id == TextOf(item.id)
    ensures ReadsText(item.title, c.title) <==> IsText(item.title, 128, Any) && c.title == TextOf(item.title)
    ensures ReadsKinds(item.contexts, c.contexts)
            <==> AreContexts(item.contexts, false) && c.contexts == ContextsOf(item.contexts)
    ensures ReadsClipped(item.description, c.description, 500) <==> c.description == Clipped(item.description, 500)
  {
    IdIff(rules, item.id, c.id);
    TextIff(item.title, c.title, 128, Any);
    ContextsIff(item.contexts, c.contexts);
    ClippedIff(item.description, c.description, 500);
  }

  lemma ContributionIff(rules: Rules, declared: seq<ContextKind>, kind: ContributionKind, v: Json, c: Contribution)
    requires IsBuilt(rules, declared, kind, c)
    ensures SaysContribution(kind, v, c)
            <==> IsContribution(rules, declared, kind, v) && c == ContributionOf(kind, v)
  {
    if v.Object? {
      BaseIff(rules, v.item, c);
      BodyIff(rules, kind, v.item, c);
    }
  }

  lemma ListIff(rules: Rules, declared: seq<ContextKind>, kind: ContributionKind, v: Json, cs: seq<Contribution>)
    requires forall c <- cs :: IsBuilt(rules, declared, kind, c)
    ensures SaysAll(kind, v, cs) <==> AreContributions(rules, declared, kind, v) && cs == BuiltOf(kind, v)
  {
    if v.List? {
      if SaysAll(kind, v, cs) {
        forall i | 0 <= i < |cs|
          ensures IsContribution(rules, declared, kind, v.items[i]) && cs[i] == ContributionOf(kind, v.items[i])
        {
          ContributionIff(rules, declared, kind, v.items[i], cs[i]);
        }
        BuiltEach(kind, v.items);
        assert cs == Built(kind, v.items);
      }
      if AreContributions(rules, declared, kind, v) && cs == BuiltOf(kind, v) {
        BuiltEach(kind, v.items);
        forall i | 0 <= i < |cs| ensures SaysContribution(kind, v.items[i], cs[i]) {
          ContributionIff(rules, declared, kind, v.items[i], cs[i]);
        }
      }
    }
  }

  // ---------- Settings and the runtime ----------

  lemma SettingIff(rules: Rules, v: Json, s: Setting)
    ensures SaysSetting(v, s) && IsBuiltSetting(rules, s)
            <==> IsSetting(rules, v) && s == SettingOf(v)
  {
    if v.Object? {
      TextIff(v.item.key, s.key, 64, rules.isSettingKey);
      TextIff(v.item.title, s.title, 128, Any);
      ClippedIff(v.item.description, s.description, 500);
    }
  }

  lemma SettingsIff(rules: Rules, v: Json, settings: seq<Setting>)
    ensures SaysSettings(v, settings) && AreBuiltSettings(rules, settings)
            <==> AreSettings(rules, v) && settings == SettingsOf(v)
  {
    if v.List? {
      if SaysSettings(v, settings) && AreBuiltSettings(rules, settings) {
        forall i | 0 <= i < |settings| ensures IsSetting(rules, v.items[i]) && settings[i] == SettingOf(v.items[i]) {
          assert settings[i] in settings;
          SettingIff(rules, v.items[i], settings[i]);
        }
        SettingsEach(v.items);
        assert settings == Settings(v.items);
      }
      if AreSettings(rules, v) && settings == SettingsOf(v) {
        SettingsEach(v.items);
        forall i | 0 <= i < |settings|
          ensures SaysSetting(v.items[i], settings[i]) && IsBuiltSetting(rules, settings[i])
        {
          assert v.items[i] in v.items;
          SettingIff(rules, v.items[i], settings[i]);
        }
      }
    }
  }

  lemma ArgumentsIff(v: Json, args: seq<string>)
    requires v.List?
    ensures AreTexts(v.items, args) <==> (forall x <- v.items :: x.Text?) && args == Texts(v.items)
  {
    if forall x <- v.items :: x.Text? {
      TextsEach(v.items);
      forall i | 0 <= i < |v.items| ensures v.items[i] == Text(Texts(v.items)[i]) {
        assert v.items[i] in v.items;
      }
      if AreTexts(v.items, args) {
        assert args == Texts(v.items);
      }
    }
  }

  lemma EnvIff(rules: Rules, raw: RawEnv, env: map<string, string>)
    ensures SaysEnv(rules, raw, env)
            && (forall k <- env :: k != "__proto__" && rules.isEnvName(k) && rules.isEnvName(env[k]))
            <==> IsEnv(rules, raw) && env == EnvOf(raw)
  {
  }

  lemma RuntimeIff(rules: Rules, raw: RawExecutable, r: Option<Runtime>, hasTools: bool)
    ensures SaysExecutable(rules, raw, r) && (r.Some? ==> IsBuiltRuntime(rules, r.value)) && (hasTools ==> r.Some?)
            <==> IsExecutable(rules, raw, hasTools) && r == ExecutableOf(raw)
  {
    if raw.Executable? && r.Some? {
      TextIff(raw.command, r.value.command, 1_024, Any);
      EnvIff(rules, raw.env, r.value.env);
      if raw.args.List? {
        ArgumentsIff(raw.args, r.value.args);
        if forall x <- raw.args.items :: x.Text? {
          TextsEach(raw.args.items);
        }
      }
    }
  }

  // ---------- The whole manifest ----------

  lemma NamesIff(rules: Rules, raw: RawManifest, p: Package)
    requires IsNamed(rules, p)
    ensures ReadsText(raw.id, p.id) <==> IsText(raw.id, 128, rules.isPackageId) && p.id == TextOf(raw.id)
    ensures ReadsText(raw.name, p.name) <==> IsText(raw.name, 128, Any) && p.name == TextOf(raw.name)
    ensures ReadsText(raw.description, p.description)
            <==> IsText(raw.description, 2_000, Any) && p.description == TextOf(raw.description)
    ensures ReadsText(raw.version, p.version)
            <==> IsText(raw.version, 64, rules.isVersion) && p.version == TextOf(raw.version)
  {
    TextIff(raw.id, p.id, 128, rules.isPackageId);
    TextIff(raw.name, p.name, 128, Any);
    TextIff(raw.description, p.description, 2_000, Any);
    TextIff(raw.version, p.version, 64, rules.isVersion);
  }

  lemma ListsIff(rules: Rules, p: Package, raw: RawContributions)
    requires IsSound(rules, p)
    ensures SaysContributions(raw, p.contributions)
            <==> raw.Given? && AreLists(rules, p.contexts, raw) && p.contributions == ContributionsOf(raw)
  {
    if raw.Given? {
      var c := p.contributions;
      ListIff(rules, p.contexts, ToolKind, raw.tools, c.tools);
      ListIff(rules, p.contexts, SkillKind, raw.skills, c.skills);
      ListIff(rules, p.contexts, CommandKind, raw.commands, c.commands);
      ListIff(rules, p.contexts, ViewsKind, raw.views, c.views);
      ListIff(rules, p.contexts, WorkflowKind, raw.workflows, c.workflows);
    }
  }

  /** Contributions that are in order are in order however they came about. */
  lemma SoundPartsAreInOrder(rules: Rules, p: Package, raw: RawContributions)
    requires IsSound(rules, p) && raw.Given? && AreLists(rules, p.contexts, raw)
    requires p.contributions == ContributionsOf(raw)
    ensures AreAllContributions(rules, p.contexts, raw) && AreHostContexts(rules, p.contributions)
  {
    var c := p.contributions;
    forall x <- c.commands ensures OpensView(x, c.views) && HostsSupport(rules, x) {
      assert IsHostedWell(rules, x);
    }
    forall x <- c.views ensures HostsSupport(rules, x) {
      assert IsHostedWell(rules, x);
    }
  }

  lemma SaidIsAccepted(rules: Rules, raw: RawManifest, p: Package)
    requires IsComplete(rules, p) && Says(rules, raw, p)
    ensures IsAcceptable(rules, raw) && p == PackageOf(raw)
  {
    NamesIff(rules, raw, p);
    ContextsIff(raw.contexts, p.contexts);
    PermissionsIff(rules, raw.permissions, p.permissions);
    SettingsIff(rules, raw.settings, p.settings);
    ListsIff(rules, p, raw.contributions);
    SoundPartsAreInOrder(rules, p, raw.contributions);
    RuntimeIff(rules, raw.executable, p.executable, p.contributions.tools != []);
  }

  lemma AcceptedIsSaid(rules: Rules, raw: RawManifest)
    requires IsAcceptable(rules, raw)
    ensures IsComplete(rules, PackageOf(raw)) && Says(rules, raw, PackageOf(raw))
  {
    var p := PackageOf(raw);
    AcceptedIsComplete(rules, raw);
    NamesIff(rules, raw, p);
    ContextsIff(raw.contexts, p.contexts);
    PermissionsIff(rules, raw.permissions, p.permissions);
    SettingsIff(rules, raw.settings, p.settings);
    ListsIff(rules, p, raw.contributions);
    RuntimeIff(rules, raw.executable, p.executable, p.contributions.tools != []);
  }

  /** A manifest is accepted as this package exactly if it says so, field by field, and the package is in order;
      so it says at most one, and nothing that is said in order is refused. */
  lemma AcceptedIff(rules: Rules, raw: RawManifest, p: Package)
    ensures IsAcceptable(rules, raw) && p == PackageOf(raw) <==> Says(rules, raw, p) && IsComplete(rules, p)
  {
    if IsAcceptable(rules, raw) {
      AcceptedIsSaid(rules, raw);
    }
    if Says(rules, raw, p) && IsComplete(rules, p) {
      SaidIsAccepted(rules, raw, p);
    }
  }

  // ---------- Order, spelled out ----------

  /** The hosts of a command and of a view, with those of its actions; no other contribution has any. */
  lemma HostsAre(c: Contribution, host: string)
    ensures host in HostsOf(c)
            <==> || (c.Command? && host == c.host)
                 || (c.View? && (c.viewHost == Some(host) || exists a <- c.actions :: a.host == host))
  {
    if c.View? {
      ActionHostsAre(c.actions, host);
    }
  }

  lemma {:induction false} ActionHostsAre(actions: seq<Action>, host: string)
    ensures host in ActionHosts(actions) <==> exists a <- actions :: a.host == host
  {
    if actions != [] {
      var n := |actions| - 1;
      ActionHostsAre(actions[..n], host);
      assert actions == actions[..n] + [actions[n]];
    }
  }

  lemma {:induction false} KeysEach(settings: seq<Setting>)
    ensures |SettingKeys(settings)| == |settings|
    ensures forall i :: 0 <= i < |settings| ==> SettingKeys(settings)[i] == settings[i].key
  {
    if settings != [] {
      KeysEach(settings[..|settings| - 1]);
    }
  }

  lemma KeysDifferIff(settings: seq<Setting>)
    ensures AreNew(SettingKeys(settings), {})
            <==> forall i, j :: 0 <= i < j < |settings| ==> settings[i].key != settings[j].key
  {
    KeysEach(settings);
  }

  // ---------- Ids, spelled out ----------

  /** The contribution's own id, or that of one of its actions. */
  ghost predicate HasId(c: Contribution, id: string) {
    id == c.id || (c.View? && exists l :: 0 <= l < |c.actions| && c.actions[l].id == id)
  }

  ghost predicate ShareNoId(c: Contribution, d: Contribution) {
    forall id :: HasId(c, id) ==> !HasId(d, id)
  }

  ghost predicate OwnIdsDiffer(c: Contribution) {
    c.View? ==>
      && (forall l :: 0 <= l < |c.actions| ==> c.actions[l].id != c.id)
      && forall k, l :: 0 <= k < l < |c.actions| ==> c.actions[k].id != c.actions[l].id
  }

  /** No two contributions have the same id, no contribution that of an action, and no two actions. */
  ghost predicate IdsDiffer(cs: seq<Contribution>) {
    && (forall c <- cs :: OwnIdsDiffer(c))
    && forall i, j :: 0 <= i < j < |cs| ==> ShareNoId(cs[i], cs[j])
  }

  lemma {:induction false} ActionIdsEach(actions: seq<Action>)
    ensures |ActionIds(actions)| == |actions|
    ensures forall l :: 0 <= l < |actions| ==> ActionIds(actions)[l] == actions[l].id
  {
    if actions != [] {
      ActionIdsEach(actions[..|actions| - 1]);
    }
  }

  lemma HasIdIff(c: Contribution, id: string)
    ensures id in IdsOf(c) <==> HasId(c, id)
  {
    if c.View? {
      ActionIdsEach(c.actions);
    }
  }

  lemma OwnIdsDifferIff(c: Contribution)
    ensures AreDistinct(IdsOf(c)) <==> OwnIdsDiffer(c)
  {
    if c.View? {
      ActionIdsEach(c.actions);
      NewInTwo([c.id], ActionIds(c.actions), {});
      assert IdsOf(c) == [c.id] + ActionIds(c.actions);
      assert c.id in ActionIds(c.actions) <==> exists l :: 0 <= l < |c.actions| && c.actions[l].id == c.id;
    }
  }

  ghost predicate SomeHasId(cs: seq<Contribution>, id: string) {
    exists i :: 0 <= i < |cs| && HasId(cs[i], id)
  }

  lemma SomeHasOneMore(cs: seq<Contribution>, c: Contribution, id: string)
    ensures SomeHasId(cs + [c], id) <==> SomeHasId(cs, id) || HasId(c, id)
  {
    var more := cs + [c];
    assert more[|cs|] == c && forall i :: 0 <= i < |cs| ==> more[i] == cs[i];
  }

  lemma {:induction false} AllIdsAre(cs: seq<Contribution>, id: string)
    ensures id in AllIds(cs) <==> SomeHasId(cs, id)
  {
    if cs != [] {
      var before, c := cs[..|cs| - 1], cs[|cs| - 1];
      AllIdsAre(before, id);
      HasIdIff(c, id);
      SomeHasOneMore(before, c, id);
      assert cs == before + [c];
    }
  }

  /** One contribution more: its own ids differ, and nobody has had them. */
  lemma OneMoreDiffersIff(cs: seq<Contribution>, c: Contribution)
    ensures IdsDiffer(cs + [c])
            <==> IdsDiffer(cs) && OwnIdsDiffer(c) && forall i :: 0 <= i < |cs| ==> ShareNoId(cs[i], c)
  {
    var more := cs + [c];
    assert more[|cs|] == c && forall i :: 0 <= i < |cs| ==> more[i] == cs[i];
    assert forall x <- more :: x in cs || x == c;
  }

  lemma NoneHasHadThemIff(cs: seq<Contribution>, c: Contribution)
    ensures (forall id <- IdsOf(c) :: id !in AllIds(cs)) <==> forall i :: 0 <= i < |cs| ==> ShareNoId(cs[i], c)
  {
    forall id ensures id in AllIds(cs) <==> SomeHasId(cs, id) {
      AllIdsAre(cs, id);
    }
    forall id ensures id in IdsOf(c) <==> HasId(c, id) {
      HasIdIff(c, id);
    }
  }

  lemma {:induction false} IdsDifferIff(cs: seq<Contribution>)
    ensures AreNew(AllIds(cs), {}) <==> IdsDiffer(cs)
  {
    if cs != [] {
      var n := |cs| - 1;
      var before, c := cs[..n], cs[n];
      IdsDifferIff(before);
      OwnIdsDifferIff(c);
      OneMoreDiffersIff(before, c);
      NoneHasHadThemIff(before, c);
      NewInTwo(AllIds(before), IdsOf(c), {});
      assert cs == before + [c];
    }
  }

  lemma AllIdsOneMore(cs: seq<Contribution>, c: Contribution)
    ensures AllIds(cs + [c]) == AllIds(cs) + IdsOf(c)
  {
    assert (cs + [c])[..|cs|] == cs;
  }

  lemma {:induction false} AllIdsInTwo(a: seq<Contribution>, b: seq<Contribution>)
    ensures AllIds(a + b) == AllIds(a) + AllIds(b)
  {
    if b == [] {
      assert a + b == a;
    } else {
      var n := |b| - 1;
      AllIdsInTwo(a, b[..n]);
      AllIdsOneMore(a + b[..n], b[n]);
      AllIdsOneMore(b[..n], b[n]);
      assert a + b == (a + b[..n]) + [b[n]] && b == b[..n] + [b[n]];
    }
  }

  /** The ids of a package are new exactly if they differ across all kinds and all actions. */
  lemma PackageIdsDifferIff(c: Contributions)
    ensures AreNew(PackageIds(c), {}) <==> IdsDiffer(c.tools + c.skills + c.commands + c.views + c.workflows)
  {
    var some := c.tools + c.skills;
    AllIdsInTwo(c.tools, c.skills);
    AllIdsInTwo(some, c.commands);
    AllIdsInTwo(some + c.commands, c.views);
    AllIdsInTwo(some + c.commands + c.views, c.workflows);
    IdsDifferIff(some + c.commands + c.views + c.workflows);
  }
}
