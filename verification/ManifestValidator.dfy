/** The validator as written: it walks the manifest once, notes every problem and goes on. */
module ManifestValidator {
  import opened Basics
  import opened Manifest

  datatype Problem =
    | BadProtocol | BadApiVersion | MissingText | TooLong | BadFormat | NoContexts | UnknownContext | WidenedContexts
    | BadPermissions | BadSettings | DuplicateKey | BadType | BadDefault | BadContributions | NotAList | NotAnObject
    | BadId | DuplicateId | UnknownHost | BadRefresh | UnknownView | NothingContributed | UnsupportedContext
    | NoRuntime | BadRuntime | BadArguments | BadEnvironment

  datatype Validation = Accepted(package: Package) | Rejected(issues: seq<Problem>)

  class Validator {
    const rules: Rules
    var issues: seq<Problem>
    var seen: set<string>

    constructor (rules: Rules)
      ensures this.rules == rules && issues == [] && seen == {}
    {
      this.rules := rules;
      issues, seen := [], {};
    }

    /** No problem was noted. */
    twostate predicate Clean()
      reads this
    {
      |issues| == |old(issues)|
    }

    twostate predicate Grows()
      reads this
    {
      |issues| >= |old(issues)|
    }

    method Note(problem: Problem)
      modifies this`issues
      ensures Grows() && !Clean()
    {
      issues := issues + [problem];
    }

    method ReadText(v: Json, max: nat, pattern: string -> bool) returns (text: string)
      modifies this`issues
      ensures Grows() && (Clean() <==> IsText(v, max, pattern)) && (Clean() ==> text == TextOf(v))
    {
      if !v.Text? || Trim(v.s) == "" {
        Note(MissingText);
        return "";
      }
      text := Trim(v.s);
      if |text| > max {
        Note(TooLong);
      }
      if !pattern(text) {
        Note(BadFormat);
      }
    }

    method ReadContexts(v: Json, required: bool) returns (kinds: seq<ContextKind>)
      modifies this`issues
      ensures Grows() && (Clean() <==> AreContexts(v, required)) && (Clean() ==> kinds == ContextsOf(v))
    {
      if v.Absent? && !required {
        return CONTEXT_KINDS;
      }
      if !v.List? || v.items == [] {
        Note(NoContexts);
        return [];
      }
      kinds := [];
      for i := 0 to |v.items|
        invariant Grows() && (Clean() <==> forall x <- v.items[..i] :: IsKindName(x))
        invariant Clean() ==> kinds == Kinds(v.items[..i])
      {
        var item := v.items[i];
        assert v.items[..i + 1] == v.items[..i] + [item];
        if !(item.Text? && item.s in ["personal", "company", "project"]) {
          assert !IsKindName(item);
          Note(UnknownContext);
        } else {
          assert IsKindName(item) by {
            assert item.s == KindName(KindOf(item));
          }
          if KindOf(item) !in kinds {
            kinds := kinds + [KindOf(item)];
          }
        }
      }
      assert v.items[..|v.items|] == v.items;
    }

    method NarrowContexts(contexts: seq<ContextKind>, declared: seq<ContextKind>) returns (kinds: seq<ContextKind>)
      modifies this`issues
      ensures Grows() && (Clean() <==> Narrows(contexts, declared)) && (Clean() ==> kinds == contexts)
    {
      kinds := contexts;
      if declared != [] && exists k <- contexts :: k !in declared {
        Note(WidenedContexts);
        kinds := [];
      }
    }

    method ReadId(v: Json) returns (id: string)
      modifies this
      ensures Grows() && (Clean() <==> IsId(rules, v) && TextOf(v) !in old(seen))
      ensures Clean() ==> id == TextOf(v) && seen == old(seen) + {id}
    {
      if !v.Text? || !rules.isContributionId(Trim(v.s)) {
        Note(BadId);
        return "";
      }
      id := Trim(v.s);
      if id in seen {
        Note(DuplicateId);
        return;
      }
      seen := seen + {id};
    }

    method ReadHost(v: Json) returns (host: string)
      modifies this`issues
      ensures Grows() && (Clean() <==> IsHost(rules, v)) && (Clean() ==> host == HostOf(v))
    {
      if !v.Text? || v.s !in rules.hosts {
        Note(UnknownHost);
        return "note.create";
      }
      host := v.s;
    }

    method ReadAction(v: Json) returns (action: Action)
      modifies this
      ensures Grows() && (Clean() <==> IsAction(rules, v) && AreNew([ActionOf(v).id], old(seen)))
      ensures Clean() ==> action == ActionOf(v) && seen == old(seen) + {action.id}
    {
      if !v.Object? {
        Note(NotAnObject);
        return ActionOf(v);
      }
      var id := ReadId(v.item.id);
      var title := ReadText(v.item.title, 128, Any);
      var host := ReadHost(v.item.host);
      action := Action(id, title, host);
    }

    method ReadActions(v: Json) returns (actions: seq<Action>)
      modifies this
      ensures Grows() && (Clean() <==> AreActions(rules, v) && AreNew(ActionIds(ActionsOf(v)), old(seen)))
      ensures Clean() ==> actions == ActionsOf(v) && seen == old(seen) + set id | id in ActionIds(actions)
    {
      actions := [];
      if v.Absent? {
        return;
      }
      if !v.List? {
        Note(NotAList);
        return;
      }
      for i := 0 to |v.items|
        invariant Grows() && (Clean() <==> AreActionsSoFar(rules, v.items[..i], old(seen)))
        invariant Clean() ==> actions == Actions(v.items[..i]) && seen == old(seen) + set id | id in ActionIds(actions)
      {
        OneMoreAction(rules, v.items, i, old(seen));
        var action := ReadAction(v.items[i]);
        actions := actions + [action];
      }
      assert v.items[..|v.items|] == v.items;
    }

    /** What only views have. */
    method ReadView(item: Item)
      returns (host: Option<string>, itemTitleKey: Option<string>, entry: Option<string>, actions: seq<Action>)
      modifies this
      ensures Grows() && (Clean() <==> IsView(rules, item) && AreNew(ActionIds(ActionsOf(item.actions)), old(seen)))
      ensures Clean() ==> actions == ActionsOf(item.actions) && seen == old(seen) + set id | id in ActionIds(actions)
      ensures Clean() ==> var web := ViewKindOf(item.kind).WebView?;
                && host == (if web && (item.host.Absent? || item.host.Null?) then None else Some(HostOf(item.host)))
                && itemTitleKey == (if web then None else Some(TextOf(item.itemTitleKey)))
                && entry == (if web then Some(TextOf(item.entry)) else None)
    {
      actions := ReadActions(item.actions);
      if !item.refreshIntervalMs.Absent? && !IsRefresh(item.refreshIntervalMs) {
        Note(BadRefresh);
      }
      if ViewKindOf(item.kind).WebView? {
        host, entry := ReadWebView(item);
        itemTitleKey := None;
      } else {
        var name := ReadHost(item.host);
        var title := ReadText(item.itemTitleKey, 64, Any);
        host, itemTitleKey, entry := Some(name), Some(title), None;
      }
    }

    method ReadWebView(item: Item) returns (host: Option<string>, entry: Option<string>)
      modifies this`issues
      ensures Grows()
      ensures Clean() <==> (item.host.Absent? || item.host.Null? || IsHost(rules, item.host))
                           && item.entry.Text? && Trim(item.entry.s) != "" && rules.isEntryPath(Trim(item.entry.s))
      ensures Clean() ==> host == (if item.host.Absent? || item.host.Null? then None else Some(HostOf(item.host)))
      ensures Clean() ==> entry == Some(TextOf(item.entry))
    {
      host := None;
      if !item.host.Absent? && !item.host.Null? {
        var name := ReadHost(item.host);
        host := Some(name);
      }
      entry := None;
      if !item.entry.Text? || Trim(item.entry.s) == "" {
        Note(MissingText);
      } else if !rules.isEntryPath(Trim(item.entry.s)) {
        Note(BadFormat);
      } else {
        entry := Some(Trim(item.entry.s));
      }
    }

    /** Id first, so that a view's own id is taken before those of its actions. */
    method ReadItem(kind: ContributionKind, v: Json, declared: seq<ContextKind>) returns (c: Contribution)
      requires v.Object?
      modifies this
      ensures Grows()
      ensures Clean() <==> IsContribution(rules, declared, kind, v) && AreNew(IdsOf(ContributionOf(kind, v)), old(seen))
      ensures Clean() ==> c == ContributionOf(kind, v) && seen == old(seen) + set id | id in IdsOf(c)
    {
      var item := v.item;
      NewInTwo([TextOf(item.id)], if kind.ViewsKind? then ActionIds(ActionsOf(item.actions)) else [], seen);
      var id := ReadId(item.id);
      var given := ReadContexts(item.contexts, false);
      var contexts := NarrowContexts(given, declared);
      var title := ReadText(item.title, 128, Any);
      c := ReadBody(kind, id, title, contexts, Clipped(item.description, 500), item);
    }

    /** What only contributions of this kind have; a view takes the ids of its actions. */
    method ReadBody(kind: ContributionKind, id: string, title: string, contexts: seq<ContextKind>,
                    description: Option<string>, item: Item)
      returns (c: Contribution)
      modifies this
      ensures Grows()
      ensures var ids := if kind.ViewsKind? then ActionIds(ActionsOf(item.actions)) else [];
              && (Clean() <==> IsBody(rules, kind, item) && AreNew(ids, old(seen)))
              && (Clean() ==> c == Assembled(kind, id, title, contexts, description, item)
                              && seen == old(seen) + set x | x in ids)
    {
      match kind
      case ToolKind =>
        var toolName := ReadText(item.toolName, 128, Any);
        c := Tool(id, title, contexts, description, toolName);
      case SkillKind =>
        var instructions := ReadText(item.instructions, 16_000, Any);
        c := Skill(id, title, contexts, description, instructions);
      case CommandKind =>
        var host := ReadHost(item.host);
        c := Command(id, title, contexts, description, host, KeywordsOf(item.keywords),
                     if item.openViewId.Text? && Trim(item.openViewId.s) != "" then Some(Trim(item.openViewId.s))
                     else None,
                     item.startsAgent == Bool(true));
      case ViewsKind =>
        var host, itemTitleKey, entry, actions := ReadView(item);
        c := View(id, title, contexts, description, ViewKindOf(item.kind), host, itemTitleKey,
                  if ViewKindOf(item.kind).WebView? then None else Clipped(item.itemBodyKey, 64), entry,
                  if IsRefresh(item.refreshIntervalMs) then Some(item.refreshIntervalMs.n) else None, actions);
      case WorkflowKind =>
        var pluginId := ReadText(item.pluginId, 128, Any);
        c := Workflow(id, title, contexts, description, pluginId);
    }

    method ReadList(kind: ContributionKind, v: Json, declared: seq<ContextKind>) returns (cs: seq<Contribution>)
      modifies this
      ensures Grows()
      ensures Clean() <==> AreContributions(rules, declared, kind, v) && AreNew(AllIds(BuiltOf(kind, v)), old(seen))
      ensures Clean() ==> cs == BuiltOf(kind, v) && seen == old(seen) + set id | id in AllIds(cs)
    {
      cs := [];
      if v.Absent? {
        return;
      }
      if !v.List? {
        Note(NotAList);
        return;
      }
      cs := ReadItems(kind, v.items, declared);
    }

    method ReadItems(kind: ContributionKind, items: seq<Json>, declared: seq<ContextKind>)
      returns (cs: seq<Contribution>)
      modifies this
      ensures Grows() && (Clean() <==> AreItemsSoFar(rules, declared, kind, items, old(seen)))
      ensures Clean() ==> cs == Built(kind, items) && seen == old(seen) + set id | id in AllIds(cs)
    {
      cs := [];
      for i := 0 to |items|
        invariant Grows() && (Clean() <==> AreItemsSoFar(rules, declared, kind, items[..i], old(seen)))
        invariant Clean() ==> cs == Built(kind, items[..i]) && seen == old(seen) + set id | id in AllIds(cs)
      {
        OneMoreItem(rules, declared, kind, items, i, old(seen));
        if !items[i].Object? {
          Note(NotAnObject);
        } else {
          var c := ReadItem(kind, items[i], declared);
          cs := cs + [c];
        }
      }
      assert items[..|items|] == items;
    }

    method ReadContributions(raw: RawContributions, declared: seq<ContextKind>) returns (c: Contributions)
      requires seen == {}
      modifies this
      ensures Grows() && (Clean() <==> AreAllContributions(rules, declared, raw))
      ensures Clean() ==> c == ContributionsOf(raw)
    {
      c := Contributions([], [], [], [], []);
      if !raw.Given? {
        Note(BadContributions);
        return;
      }
      c := ReadLists(raw, declared);
      CheckOpenViews(c);
      if Total(c) == 0 {
        Note(NothingContributed);
      }
    }

    method ReadLists(raw: RawContributions, declared: seq<ContextKind>) returns (c: Contributions)
      requires raw.Given? && seen == {}
      modifies this
      ensures Grows()
      ensures Clean() <==> AreLists(rules, declared, raw) && AreNew(PackageIds(ContributionsOf(raw)), {})
      ensures Clean() ==> c == ContributionsOf(raw)
    {
      ghost var all := ContributionsOf(raw);
      NewInFive(AllIds(all.tools), AllIds(all.skills), AllIds(all.commands), AllIds(all.views), AllIds(all.workflows));
      var tools := ReadList(ToolKind, raw.tools, declared);
      var skills := ReadList(SkillKind, raw.skills, declared);
      var commands := ReadList(CommandKind, raw.commands, declared);
      var views := ReadList(ViewsKind, raw.views, declared);
      var workflows := ReadList(WorkflowKind, raw.workflows, declared);
      c := Contributions(tools, skills, commands, views, workflows);
    }

    method CheckOpenViews(c: Contributions)
      modifies this`issues
      ensures Grows() && (Clean() <==> forall x <- c.commands :: OpensView(x, c.views))
    {
      for i := 0 to |c.commands|
        invariant Grows() && (Clean() <==> forall x <- c.commands[..i] :: OpensView(x, c.views))
      {
        assert c.commands[..i + 1] == c.commands[..i] + [c.commands[i]];
        if !OpensView(c.commands[i], c.views) {
          Note(UnknownView);
        }
      }
      assert c.commands[..|c.commands|] == c.commands;
    }

    method CheckHosts(cs: seq<Contribution>)
      modifies this`issues
      ensures Grows() && (Clean() <==> forall x <- cs :: HostsSupport(rules, x))
    {
      for i := 0 to |cs|
        invariant Grows() && (Clean() <==> forall x <- cs[..i] :: HostsSupport(rules, x))
      {
        assert cs[..i + 1] == cs[..i] + [cs[i]];
        CheckHostsOf(cs[i]);
      }
      assert cs[..|cs|] == cs;
    }

    method CheckHostsOf(c: Contribution)
      modifies this`issues
      ensures Grows() && (Clean() <==> HostsSupport(rules, c))
    {
      var hosts := HostsOf(c);
      for i := 0 to |hosts|
        invariant Grows() && (Clean() <==> forall host <- hosts[..i] :: SupportsAll(rules, host, c.contexts))
      {
        assert hosts[..i + 1] == hosts[..i] + [hosts[i]];
        if !SupportsAll(rules, hosts[i], c.contexts) {
          Note(UnsupportedContext);
        }
      }
      assert hosts[..|hosts|] == hosts;
    }

    method ReadPermissions(v: Json) returns (permissions: seq<string>)
      modifies this`issues
      ensures Grows() && (Clean() <==> ArePermissions(rules, v)) && (Clean() ==> permissions == PermissionsOf(v))
    {
      permissions := [];
      if v.Absent? {
        return;
      }
      if !v.List? {
        Note(BadPermissions);
        return;
      }
      for i := 0 to |v.items|
        invariant Grows() && (Clean() <==> forall x <- v.items[..i] :: IsPermission(rules, x))
        invariant Clean() ==> permissions == Unrepeated(v.items[..i])
      {
        var item := v.items[i];
        assert v.items[..i + 1] == v.items[..i] + [item];
        if !IsPermission(rules, item) {
          Note(BadPermissions);
        } else if item.s !in permissions {
          permissions := permissions + [item.s];
        }
      }
      assert v.items[..|v.items|] == v.items;
    }

    method ReadSettings(v: Json) returns (settings: seq<Setting>)
      modifies this`issues
      ensures Grows() && (Clean() <==> AreSettings(rules, v)) && (Clean() ==> settings == SettingsOf(v))
    {
      settings := [];
      if v.Absent? {
        return;
      }
      if !v.List? {
        Note(BadSettings);
        return;
      }
      var keys: set<string> := {};
      for i := 0 to |v.items|
        invariant Grows() && (Clean() <==> AreSettingsSoFar(rules, v.items[..i]))
        invariant Clean() ==> AreSettingsRead(v.items[..i], settings, keys)
      {
        if AreSettingsRead(v.items[..i], settings, keys) {
          OneMoreSettingRead(rules, v.items, i, settings, keys);
        }
        OneMoreSettingFails(rules, v.items, i);
        var read := ReadSetting(v.items[i], keys);
        if read.Some? {
          keys := keys + {read.value.key};
          settings := settings + [read.value];
        }
      }
      assert v.items[..|v.items|] == v.items;
      SettingsAreAll(rules, v.items);
    }

    method ReadSetting(v: Json, keys: set<string>) returns (setting: Option<Setting>)
      modifies this`issues
      ensures Grows() && (Clean() <==> IsSetting(rules, v) && SettingOf(v).key !in keys)
      ensures Clean() ==> setting == Some(SettingOf(v))
    {
      setting := None;
      if !v.Object? {
        Note(NotAnObject);
        return;
      }
      var key := ReadText(v.item.key, 64, rules.isSettingKey);
      var title := ReadText(v.item.title, 128, Any);
      var valueType := v.item.valueType;
      if valueType !in [Text("string"), Text("boolean"), Text("number")] {
        Note(BadType);
        return;
      }
      if key in keys {
        Note(DuplicateKey);
        return;
      }
      var default := v.item.defaultValue;
      if !default.Absent? && !HasType(default, valueType.s) {
        Note(BadDefault);
        return;
      }
      setting := Some(Setting(key, title, valueType.s, default, Clipped(v.item.description, 500)));
    }

    method ReadExecutable(raw: RawExecutable, hasTools: bool) returns (runtime: Option<Runtime>)
      modifies this`issues
      ensures Grows() && (Clean() <==> IsExecutable(rules, raw, hasTools)) && (Clean() ==> runtime == ExecutableOf(raw))
    {
      runtime := None;
      if raw.NoExecutable? {
        if hasTools {
          Note(NoRuntime);
        }
        return;
      }
      if raw.BadExecutable? || raw.kind != Text("mcp-stdio") {
        Note(BadRuntime);
        return;
      }
      var command := ReadText(raw.command, 1_024, Any);
      if !raw.args.List? || |raw.args.items| > 64 {
        Note(BadArguments);
        return;
      }
      var args := ReadArguments(raw.args.items);
      if !IsEnv(rules, raw.env) {
        Note(BadEnvironment);
      }
      runtime := Some(Runtime(command, args, EnvOf(raw.env)));
    }

    method ReadArguments(items: seq<Json>) returns (args: seq<string>)
      modifies this`issues
      ensures Grows() && (Clean() <==> forall x <- items :: x.Text? && |x.s| <= 4_096)
              && (Clean() ==> args == Texts(items))
    {
      args := [];
      for i := 0 to |items|
        invariant Grows() && (Clean() <==> forall x <- items[..i] :: x.Text? && |x.s| <= 4_096)
        invariant Clean() ==> args == Texts(items[..i])
      {
        assert items[..i + 1] == items[..i] + [items[i]];
        if !items[i].Text? || |items[i].s| > 4_096 {
          Note(BadArguments);
        } else {
          args := args + [items[i].s];
        }
      }
      assert items[..|items|] == items;
    }

    method ReadNames(raw: RawManifest) returns (id: string, name: string, description: string, version: string)
      modifies this`issues
      ensures Grows() && (Clean() <==> AreNames(rules, raw))
      ensures Clean() ==> id == TextOf(raw.id) && name == TextOf(raw.name)
      ensures Clean() ==> description == TextOf(raw.description) && version == TextOf(raw.version)
    {
      if raw.protocol != Text("nd.extension/1") {
        Note(BadProtocol);
      }
      id := ReadText(raw.id, 128, rules.isPackageId);
      name := ReadText(raw.name, 128, Any);
      description := ReadText(raw.description, 2_000, Any);
      version := ReadText(raw.version, 64, rules.isVersion);
      if raw.apiVersion != Number(1) {
        Note(BadApiVersion);
      }
    }

    method ReadManifest(raw: RawManifest) returns (package: Package)
      requires seen == {}
      modifies this
      ensures Grows() && (Clean() <==> IsAcceptable(rules, raw)) && (Clean() ==> package == PackageOf(raw))
    {
      var id, name, description, version := ReadNames(raw);
      var contexts := ReadContexts(raw.contexts, true);
      var permissions := ReadPermissions(raw.permissions);
      var settings := ReadSettings(raw.settings);
      var contributions, executable := ReadParts(raw, contexts);
      package := Package(id, name, description, version, contexts, permissions, settings, contributions, executable);
    }

    /** The contributions against the package's contexts and their hosts, and the runtime they need. */
    method ReadParts(raw: RawManifest, declared: seq<ContextKind>)
      returns (contributions: Contributions, executable: Option<Runtime>)
      requires seen == {}
      modifies this
      ensures Grows() && (Clean() <==> AreParts(rules, declared, raw))
      ensures Clean() ==>
                contributions == ContributionsOf(raw.contributions) && executable == ExecutableOf(raw.executable)
    {
      contributions := ReadContributions(raw.contributions, declared);
      CheckHosts(contributions.commands);
      CheckHosts(contributions.views);
      executable := ReadExecutable(raw.executable, contributions.tools != []);
    }
  }

  /** Accepts exactly the acceptable manifests, and returns what they say. */
  method Validate(rules: Rules, raw: RawManifest) returns (result: Validation)
    ensures result.Accepted? <==> IsAcceptable(rules, raw)
    ensures result.Accepted? ==> result.package == PackageOf(raw)
    ensures result.Rejected? ==> result.issues != []
  {
    var validator := new Validator(rules);
    var package := validator.ReadManifest(raw);
    result := if validator.issues == [] then Accepted(package) else Rejected(validator.issues);
  }

  ghost predicate AreItemsSoFar(rules: Rules, declared: seq<ContextKind>, kind: ContributionKind, items: seq<Json>,
                                seen: set<string>)
  {
    (forall x <- items :: IsContribution(rules, declared, kind, x)) && AreNew(AllIds(Built(kind, items)), seen)
  }

  lemma OneMoreItem(rules: Rules, declared: seq<ContextKind>, kind: ContributionKind, items: seq<Json>, i: nat,
                    seen: set<string>)
    requires i < |items|
    ensures !items[i].Object? ==> !AreItemsSoFar(rules, declared, kind, items[..i + 1], seen)
    ensures items[i].Object? ==>
      var c, before := ContributionOf(kind, items[i]), Built(kind, items[..i]);
      && Built(kind, items[..i + 1]) == before + [c]
      && AllIds(before + [c]) == AllIds(before) + IdsOf(c)
      && (AreItemsSoFar(rules, declared, kind, items[..i + 1], seen)
          <==> AreItemsSoFar(rules, declared, kind, items[..i], seen) && IsContribution(rules, declared, kind, items[i])
               && AreNew(IdsOf(c), seen + set id | id in AllIds(before)))
  {
    assert items[..i + 1] == items[..i] + [items[i]] && items[i] in items[..i + 1];
    if items[i].Object? {
      var c, before := ContributionOf(kind, items[i]), Built(kind, items[..i]);
      assert (before + [c])[..|before|] == before;
      NewInTwo(AllIds(before), IdsOf(c), seen);
    }
  }

  function Elements(ids: seq<string>): set<string> {
    set id | id in ids
  }

  lemma NewInFive(a: seq<string>, b: seq<string>, c: seq<string>, d: seq<string>, e: seq<string>)
    ensures AreNew(a + b + c + d + e, {})
            <==> AreNew(a, {}) && AreNew(b, Elements(a)) && AreNew(c, Elements(a) + Elements(b))
                 && AreNew(d, Elements(a) + Elements(b) + Elements(c))
                 && AreNew(e, Elements(a) + Elements(b) + Elements(c) + Elements(d))
  {
    NewInTwo(a + b + c + d, e, {});
    NewInTwo(a + b + c, d, {});
    NewInTwo(a + b, c, {});
    NewInTwo(a, b, {});
    assert {} + Elements(a) == Elements(a);
    assert {} + Elements(a + b) == Elements(a) + Elements(b);
    assert {} + Elements(a + b + c) == Elements(a) + Elements(b) + Elements(c);
    assert {} + Elements(a + b + c + d) == Elements(a) + Elements(b) + Elements(c) + Elements(d);
  }

  ghost predicate AreSettingsSoFar(rules: Rules, items: seq<Json>) {
    (forall x <- items :: IsSetting(rules, x)) && AreNew(SettingKeys(Settings(items)), {})
  }

  lemma OneMoreSetting(rules: Rules, items: seq<Json>, i: nat)
    requires i < |items|
    ensures !items[i].Object? ==> !AreSettingsSoFar(rules, items[..i + 1])
    ensures items[i].Object? ==>
      var setting, before := SettingOf(items[i]), Settings(items[..i]);
      && Settings(items[..i + 1]) == before + [setting]
      && SettingKeys(before + [setting]) == SettingKeys(before) + [setting.key]
      && (AreSettingsSoFar(rules, items[..i + 1])
          <==> AreSettingsSoFar(rules, items[..i]) && IsSetting(rules, items[i]) && setting.key !in SettingKeys(before))
  {
    assert items[..i + 1] == items[..i] + [items[i]] && items[i] in items[..i + 1];
    if items[i].Object? {
      var setting, before := SettingOf(items[i]), Settings(items[..i]);
      assert (before + [setting])[..|before|] == before;
      NewInTwo(SettingKeys(before), [setting.key], {});
      assert setting.key in [setting.key];
      assert AreNew([setting.key], {} + set key | key in SettingKeys(before)) <==> setting.key !in SettingKeys(before);
    }
  }

  ghost predicate AreSettingsRead(items: seq<Json>, settings: seq<Setting>, keys: set<string>) {
    settings == Settings(items) && forall key :: key in keys <==> key in SettingKeys(settings)
  }

  lemma OneMoreSettingRead(rules: Rules, items: seq<Json>, i: nat, settings: seq<Setting>, keys: set<string>)
    requires i < |items| && AreSettingsRead(items[..i], settings, keys)
    ensures items[i].Object? ==>
      var setting := SettingOf(items[i]);
      && AreSettingsRead(items[..i + 1], settings + [setting], keys + {setting.key})
      && (AreSettingsSoFar(rules, items[..i + 1])
          <==> AreSettingsSoFar(rules, items[..i]) && IsSetting(rules, items[i]) && setting.key !in keys)
  {
    OneMoreSetting(rules, items, i);
  }

  lemma SettingsAreAll(rules: Rules, items: seq<Json>)
    ensures AreSettings(rules, List(items)) <==> AreSettingsSoFar(rules, items)
  {
  }

  lemma OneMoreSettingFails(rules: Rules, items: seq<Json>, i: nat)
    requires i < |items|
    ensures !items[i].Object? || !AreSettingsSoFar(rules, items[..i]) ==> !AreSettingsSoFar(rules, items[..i + 1])
  {
    OneMoreSetting(rules, items, i);
  }

  /** The first elements of a list of actions are in order and their ids new. */
  ghost predicate AreActionsSoFar(rules: Rules, items: seq<Json>, seen: set<string>) {
    (forall x <- items :: IsAction(rules, x)) && AreNew(ActionIds(Actions(items)), seen)
  }

  lemma OneMoreAction(rules: Rules, items: seq<Json>, i: nat, seen: set<string>)
    requires i < |items|
    ensures Actions(items[..i + 1]) == Actions(items[..i]) + [ActionOf(items[i])]
    ensures ActionIds(Actions(items[..i + 1])) == ActionIds(Actions(items[..i])) + [ActionOf(items[i]).id]
    ensures AreActionsSoFar(rules, items[..i + 1], seen)
            <==> AreActionsSoFar(rules, items[..i], seen) && IsAction(rules, items[i])
                 && AreNew([ActionOf(items[i]).id], seen + set id | id in ActionIds(Actions(items[..i])))
  {
    assert items[..i + 1] == items[..i] + [items[i]];
    var before := Actions(items[..i]);
    assert (before + [ActionOf(items[i])])[..|before|] == before;
    NewInTwo(ActionIds(before), [ActionOf(items[i]).id], seen);
  }
}
