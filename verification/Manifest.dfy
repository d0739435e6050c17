/** Extension manifests: what the validator accepts, what it makes of it, and what then holds of the result. */
module Manifest {
  import opened Basics

  datatype ContextKind = Personal | Company | Project

  const CONTEXT_KINDS: seq<ContextKind> := [Personal, Company, Project]

  function KindName(kind: ContextKind): string {
    match kind
    case Personal => "personal"
    case Company => "company"
    case Project => "project"
  }

  datatype HostMethod = HostMethod(permission: string, contexts: set<ContextKind>)

  /** The allowlists and formats a manifest is held against. */
  datatype Rules = Rules(
    hosts: map<string, HostMethod>,
    permissions: set<string>,
    isPackageId: string -> bool,
    isContributionId: string -> bool,
    isVersion: string -> bool,
    isSettingKey: string -> bool,
    isEnvName: string -> bool,
    isEntryPath: string -> bool)

  // ---------- What is read ----------

  /** A field as it stands in the manifest; only the members the validator looks at are kept of an object. */
  datatype Json =
    | Absent | Null | Bool(flag: bool) | Number(n: int) | Text(s: string) | List(items: seq<Json>) | Object(item: Item)

  datatype Item = Item(
    id: Json, title: Json, description: Json, contexts: Json, toolName: Json, instructions: Json, host: Json,
    keywords: Json, openViewId: Json, startsAgent: Json, kind: Json, actions: Json, refreshIntervalMs: Json,
    itemTitleKey: Json, itemBodyKey: Json, entry: Json, pluginId: Json, key: Json, valueType: Json, defaultValue: Json)

  const BLANK_ITEM := Item(
    Absent, Absent, Absent, Absent, Absent, Absent, Absent, Absent, Absent, Absent,
    Absent, Absent, Absent, Absent, Absent, Absent, Absent, Absent, Absent, Absent)

  datatype RawContributions =
    MissingContributions | NoObject | Given(tools: Json, skills: Json, commands: Json, views: Json, workflows: Json)

  datatype RawEnv = NoEnv | BadEnv | Env(entries: map<string, Json>)

  datatype RawExecutable = NoExecutable | BadExecutable | Executable(kind: Json, command: Json, args: Json, env: RawEnv)

  datatype RawManifest = RawManifest(
    protocol: Json, id: Json, name: Json, description: Json, version: Json, apiVersion: Json, contexts: Json,
    permissions: Json, settings: Json, contributions: RawContributions, executable: RawExecutable)

  // ---------- What is made of it ----------

  datatype ViewKind = ListView | DetailView | WebView

  datatype Action = Action(id: string, title: string, host: string)

  datatype Contribution =
    | Tool(id: string, title: string, contexts: seq<ContextKind>, description: Option<string>, toolName: string)
    | Skill(id: string, title: string, contexts: seq<ContextKind>, description: Option<string>, instructions: string)
    | Command(id: string, title: string, contexts: seq<ContextKind>, description: Option<string>, host: string,
              keywords: seq<string>, openViewId: Option<string>, startsAgent: bool)
    | View(id: string, title: string, contexts: seq<ContextKind>, description: Option<string>, viewKind: ViewKind,
           viewHost: Option<string>, itemTitleKey: Option<string>, itemBodyKey: Option<string>, entry: Option<string>,
           refreshIntervalMs: Option<int>, actions: seq<Action>)
    | Workflow(id: string, title: string, contexts: seq<ContextKind>, description: Option<string>, pluginId: string)

  datatype ContributionKind = ToolKind | SkillKind | CommandKind | ViewsKind | WorkflowKind

  datatype Contributions = Contributions(
    tools: seq<Contribution>, skills: seq<Contribution>, commands: seq<Contribution>, views: seq<Contribution>,
    workflows: seq<Contribution>)

  datatype Setting = Setting(key: string, title: string, valueType: string, defaultValue: Json,
                             description: Option<string>)

  datatype Runtime = Runtime(command: string, args: seq<string>, env: map<string, string>)

  datatype Package = Package(
    id: string, name: string, description: string, version: string, contexts: seq<ContextKind>,
    permissions: seq<string>, settings: seq<Setting>, contributions: Contributions, executable: Option<Runtime>)

  // ---------- Texts ----------

  function Any(s: string): bool {
    true
  }

  predicate IsText(v: Json, max: nat, pattern: string -> bool) {
    v.Text? && Trim(v.s) != "" && |Trim(v.s)| <= max && pattern(Trim(v.s))
  }

  function TextOf(v: Json): string {
    if v.Text? then Trim(v.s) else ""
  }

  function Clip(s: string, max: nat): string {
    if |s| <= max then s else s[..max]
  }

  /** Optional texts are clipped, not refused. */
  function Clipped(v: Json, max: nat): Option<string> {
    if v.Text? && Trim(v.s) != "" then Some(Clip(Trim(v.s), max)) else None
  }

  // ---------- Contexts ----------

  predicate IsKindName(v: Json) {
    v.Text? && exists k :: v.s == KindName(k)
  }

  function KindOf(v: Json): ContextKind {
    if v == Text("company") then Company else if v == Text("project") then Project else Personal
  }

  function Kinds(items: seq<Json>): seq<ContextKind> {
    if items == [] then []
    else
      var before := Kinds(items[..|items| - 1]);
      var kind := KindOf(items[|items| - 1]);
      if kind in before then before else before + [kind]
  }

  predicate AreContexts(v: Json, required: bool) {
    (v.Absent? && !required) || (v.List? && v.items != [] && forall x <- v.items :: IsKindName(x))
  }

  function ContextsOf(v: Json): seq<ContextKind> {
    if v.List? then Kinds(v.items) else CONTEXT_KINDS
  }

  /** A contribution's contexts may narrow the package's but not widen them. */
  predicate Narrows(contexts: seq<ContextKind>, declared: seq<ContextKind>) {
    declared == [] || forall k <- contexts :: k in declared
  }

  /** A contribution that lists no contexts gets all kinds, so it is in order only in a package that declares
      them all. */
  lemma UnlistedContextsNarrowIff(declared: seq<ContextKind>)
    ensures Narrows(ContextsOf(Absent), declared)
            <==> declared == [] || (Personal in declared && Company in declared && Project in declared)
  {
    assert CONTEXT_KINDS[0] == Personal && CONTEXT_KINDS[1] == Company && CONTEXT_KINDS[2] == Project;
    assert forall k <- CONTEXT_KINDS :: k == Personal || k == Company || k == Project;
  }

  // ---------- Contributions ----------

  predicate IsHost(rules: Rules, v: Json) {
    v.Text? && v.s in rules.hosts
  }

  function HostOf(v: Json): string {
    if v.Text? then v.s else "note.create"
  }

  predicate IsAction(rules: Rules, v: Json) {
    && v.Object?
    && IsId(rules, v.item.id) && IsText(v.item.title, 128, Any) && IsHost(rules, v.item.host)
  }

  predicate IsId(rules: Rules, v: Json) {
    v.Text? && rules.isContributionId(Trim(v.s))
  }

  function ActionOf(v: Json): Action {
    if v.Object? then Action(TextOf(v.item.id), TextOf(v.item.title), HostOf(v.item.host))
    else Action("", "", "note.create")
  }

  function Actions(items: seq<Json>): seq<Action> {
    if items == [] then [] else Actions(items[..|items| - 1]) + [ActionOf(items[|items| - 1])]
  }

  predicate AreActions(rules: Rules, v: Json) {
    v.Absent? || (v.List? && forall x <- v.items :: IsAction(rules, x))
  }

  function ActionsOf(v: Json): seq<Action> {
    if v.List? then Actions(v.items) else []
  }

  function ViewKindOf(v: Json): ViewKind {
    if v == Text("web") then WebView else if v == Text("detail") then DetailView else ListView
  }

  predicate IsRefresh(v: Json) {
    v.Number? && 2_000 <= v.n <= 60_000
  }

  predicate IsView(rules: Rules, item: Item) {
    && AreActions(rules, item.actions)
    && (item.refreshIntervalMs.Absent? || IsRefresh(item.refreshIntervalMs))
    && if ViewKindOf(item.kind).WebView? then
         (item.host.Absent? || item.host.Null? || IsHost(rules, item.host))
         && item.entry.Text? && Trim(item.entry.s) != "" && rules.isEntryPath(Trim(item.entry.s))
       else
         IsHost(rules, item.host) && IsText(item.itemTitleKey, 64, Any)
  }

  function KeywordsOf(v: Json): seq<string> {
    if v.List? then FirstOf(Keywords(v.items), 32) else []
  }

  function FirstOf(s: seq<string>, max: nat): seq<string> {
    if |s| <= max then s else s[..max]
  }

  function Keywords(items: seq<Json>): seq<string> {
    if items == [] then []
    else
      var x := items[|items| - 1];
      Keywords(items[..|items| - 1]) + if Clipped(x, 64).Some? then [Clipped(x, 64).value] else []
  }

  /** One contribution, but for its id being new. */
  predicate IsContribution(rules: Rules, declared: seq<ContextKind>, kind: ContributionKind, v: Json) {
    && v.Object?
    && IsId(rules, v.item.id) && IsText(v.item.title, 128, Any)
    && AreContexts(v.item.contexts, false) && Narrows(ContextsOf(v.item.contexts), declared)
    && IsBody(rules, kind, v.item)
  }

  /** What only contributions of this kind have. */
  predicate IsBody(rules: Rules, kind: ContributionKind, item: Item) {
    match kind
    case ToolKind => IsText(item.toolName, 128, Any)
    case SkillKind => IsText(item.instructions, 16_000, Any)
    case CommandKind => IsHost(rules, item.host)
    case ViewsKind => IsView(rules, item)
    case WorkflowKind => IsText(item.pluginId, 128, Any)
  }

  function ViewOf(id: string, title: string, contexts: seq<ContextKind>, description: Option<string>,
                  item: Item): Contribution
  {
    var kind := ViewKindOf(item.kind);
    var web := kind.WebView?;
    View(id, title, contexts, description, kind,
         if web && (item.host.Absent? || item.host.Null?) then None else Some(HostOf(item.host)),
         if web then None else Some(TextOf(item.itemTitleKey)),
         if web then None else Clipped(item.itemBodyKey, 64),
         if web then Some(TextOf(item.entry)) else None,
         if IsRefresh(item.refreshIntervalMs) then Some(item.refreshIntervalMs.n) else None,
         ActionsOf(item.actions))
  }

  function Assembled(kind: ContributionKind, id: string, title: string, contexts: seq<ContextKind>,
                     description: Option<string>, item: Item): Contribution
  {
    match kind
    case ToolKind => Tool(id, title, contexts, description, TextOf(item.toolName))
    case SkillKind => Skill(id, title, contexts, description, TextOf(item.instructions))
    case CommandKind =>
      Command(id, title, contexts, description, HostOf(item.host), KeywordsOf(item.keywords),
              if item.openViewId.Text? && Trim(item.openViewId.s) != "" then Some(Trim(item.openViewId.s)) else None,
              item.startsAgent == Bool(true))
    case ViewsKind => ViewOf(id, title, contexts, description, item)
    case WorkflowKind => Workflow(id, title, contexts, description, TextOf(item.pluginId))
  }

  function ContributionOf(kind: ContributionKind, v: Json): Contribution
    requires v.Object?
  {
    Assembled(kind, TextOf(v.item.id), TextOf(v.item.title), ContextsOf(v.item.contexts),
              Clipped(v.item.description, 500), v.item)
  }

  predicate AreContributions(rules: Rules, declared: seq<ContextKind>, kind: ContributionKind, v: Json) {
    v.Absent? || (v.List? && forall x <- v.items :: IsContribution(rules, declared, kind, x))
  }

  function Built(kind: ContributionKind, items: seq<Json>): seq<Contribution> {
    if items == [] then []
    else
      var x := items[|items| - 1];
      Built(kind, items[..|items| - 1]) + if x.Object? then [ContributionOf(kind, x)] else []
  }

  function BuiltOf(kind: ContributionKind, v: Json): seq<Contribution> {
    if v.List? then Built(kind, v.items) else []
  }

  // ---------- Ids across the package ----------

  function ActionIds(actions: seq<Action>): seq<string> {
    if actions == [] then [] else ActionIds(actions[..|actions| - 1]) + [actions[|actions| - 1].id]
  }

  /** The ids of a contribution in the order they are checked; a view brings those of its actions. */
  function IdsOf(c: Contribution): seq<string> {
    [c.id] + if c.View? then ActionIds(c.actions) else []
  }

  function AllIds(cs: seq<Contribution>): seq<string> {
    if cs == [] then [] else AllIds(cs[..|cs| - 1]) + IdsOf(cs[|cs| - 1])
  }

  function PackageIds(c: Contributions): seq<string> {
    AllIds(c.tools) + AllIds(c.skills) + AllIds(c.commands) + AllIds(c.views) + AllIds(c.workflows)
  }

  predicate AreDistinct(ids: seq<string>) {
    forall i, j :: 0 <= i < j < |ids| ==> ids[i] != ids[j]
  }

  /** Distinct, and none seen before. */
  predicate AreNew(ids: seq<string>, seen: set<string>) {
    AreDistinct(ids) && forall id <- ids :: id !in seen
  }

  lemma NewInTwo(a: seq<string>, b: seq<string>, seen: set<string>)
    ensures AreNew(a + b, seen) <==> AreNew(a, seen) && AreNew(b, seen + set id | id in a)
  {
    var ab := a + b;
    if AreNew(ab, seen) {
      forall i, j | 0 <= i < j < |a| ensures a[i] != a[j] {
        assert ab[i] == a[i] && ab[j] == a[j];
      }
      forall i, j | 0 <= i < j < |b| ensures b[i] != b[j] {
        assert ab[|a| + i] == b[i] && ab[|a| + j] == b[j];
      }
      forall id | id in b ensures id !in a && id !in seen {
        var j :| 0 <= j < |b| && b[j] == id;
        assert ab[|a| + j] == id;
        assert forall i :: 0 <= i < |a| ==> a[i] == ab[i] && ab[i] != ab[|a| + j];
      }
      assert forall id <- a :: id in ab;
    }
    if AreNew(a, seen) && AreNew(b, seen + set id | id in a) {
      forall i, j | 0 <= i < j < |ab| ensures ab[i] != ab[j] {
        if i < |a| <= j {
          assert ab[i] in a && ab[j] in b;
        }
      }
    }
  }

  // ---------- The whole manifest ----------

  function ContributionsOf(raw: RawContributions): Contributions
    requires raw.Given?
  {
    Contributions(BuiltOf(ToolKind, raw.tools), BuiltOf(SkillKind, raw.skills), BuiltOf(CommandKind, raw.commands),
                  BuiltOf(ViewsKind, raw.views), BuiltOf(WorkflowKind, raw.workflows))
  }

  predicate OpensView(c: Contribution, views: seq<Contribution>) {
    c.Command? && c.openViewId.Some? ==> exists i :: 0 <= i < |views| && views[i].id == c.openViewId.value
  }

  function Total(c: Contributions): nat {
    |c.tools| + |c.skills| + |c.commands| + |c.views| + |c.workflows|
  }

  predicate AreLists(rules: Rules, declared: seq<ContextKind>, raw: RawContributions)
    requires raw.Given?
  {
    && AreContributions(rules, declared, ToolKind, raw.tools)
    && AreContributions(rules, declared, SkillKind, raw.skills)
    && AreContributions(rules, declared, CommandKind, raw.commands)
    && AreContributions(rules, declared, ViewsKind, raw.views)
    && AreContributions(rules, declared, WorkflowKind, raw.workflows)
  }

  /** Every list is in order, all ids differ, commands open views that exist, and there is something. */
  predicate AreAllContributions(rules: Rules, declared: seq<ContextKind>, raw: RawContributions) {
    && raw.Given? && AreLists(rules, declared, raw)
    && var c := ContributionsOf(raw);
    && AreNew(PackageIds(c), {})
    && (forall x <- c.commands :: OpensView(x, c.views))
    && Total(c) > 0
  }

  predicate SupportsAll(rules: Rules, host: string, contexts: seq<ContextKind>) {
    host in rules.hosts ==> forall k <- contexts :: k in rules.hosts[host].contexts
  }

  /** The hosts a contribution names, its own before those of its actions. */
  function HostsOf(c: Contribution): seq<string> {
    match c
    case Command(_, _, _, _, host, _, _, _) => [host]
    case View(_, _, _, _, _, host, _, _, _, _, actions) =>
      (if host.Some? then [host.value] else []) + ActionHosts(actions)
    case _ => []
  }

  function ActionHosts(actions: seq<Action>): seq<string> {
    if actions == [] then [] else ActionHosts(actions[..|actions| - 1]) + [actions[|actions| - 1].host]
  }

  predicate HostsSupport(rules: Rules, c: Contribution) {
    forall host <- HostsOf(c) :: SupportsAll(rules, host, c.contexts)
  }

  predicate AreHostContexts(rules: Rules, c: Contributions) {
    (forall x <- c.commands :: HostsSupport(rules, x)) && forall x <- c.views :: HostsSupport(rules, x)
  }

  function Texts(items: seq<Json>): seq<string> {
    if items == [] then []
    else Texts(items[..|items| - 1]) + if items[|items| - 1].Text? then [items[|items| - 1].s] else []
  }

  predicate IsEnv(rules: Rules, env: RawEnv) {
    match env
    case NoEnv => true
    case BadEnv => false
    case Env(entries) =>
      forall target <- entries :: rules.isEnvName(target) && entries[target].Text? && rules.isEnvName(entries[target].s)
  }

  /** Assigning to `__proto__` of a plain object leaves no entry. */
  function EnvOf(env: RawEnv): map<string, string> {
    match env
    case Env(entries) =>
      map target | target in entries && target != "__proto__" && entries[target].Text? :: entries[target].s
    case _ => map[]
  }

  predicate IsExecutable(rules: Rules, raw: RawExecutable, hasTools: bool) {
    match raw
    case NoExecutable => !hasTools
    case BadExecutable => false
    case Executable(kind, command, args, env) =>
      && kind == Text("mcp-stdio") && IsText(command, 1_024, Any)
      && args.List? && |args.items| <= 64 && (forall x <- args.items :: x.Text? && |x.s| <= 4_096)
      && IsEnv(rules, env)
  }

  function ExecutableOf(raw: RawExecutable): Option<Runtime> {
    match raw
    case Executable(_, command, args, env) =>
      Some(Runtime(TextOf(command), if args.List? then Texts(args.items) else [], EnvOf(env)))
    case _ => None
  }

  predicate IsPermission(rules: Rules, v: Json) {
    v.Text? && v.s in rules.permissions
  }

  function Unrepeated(items: seq<Json>): seq<string> {
    if items == [] then []
    else
      var before := Unrepeated(items[..|items| - 1]);
      var x := items[|items| - 1];
      if !x.Text? || x.s in before then before else before + [x.s]
  }

  predicate ArePermissions(rules: Rules, v: Json) {
    v.Absent? || (v.List? && forall x <- v.items :: IsPermission(rules, x))
  }

  function PermissionsOf(v: Json): seq<string> {
    if v.List? then Unrepeated(v.items) else []
  }

  predicate HasType(v: Json, valueType: string) {
    (v.Text? && valueType == "string") || (v.Bool? && valueType == "boolean") || (v.Number? && valueType == "number")
  }

  predicate IsSetting(rules: Rules, v: Json) {
    && v.Object?
    && IsText(v.item.key, 64, rules.isSettingKey) && IsText(v.item.title, 128, Any)
    && v.item.valueType in [Text("string"), Text("boolean"), Text("number")]
    && (v.item.defaultValue.Absent? || HasType(v.item.defaultValue, v.item.valueType.s))
  }

  function SettingOf(v: Json): Setting
    requires v.Object?
  {
    Setting(TextOf(v.item.key), TextOf(v.item.title), if v.item.valueType.Text? then v.item.valueType.s else "",
            v.item.defaultValue, Clipped(v.item.description, 500))
  }

  function Settings(items: seq<Json>): seq<Setting> {
    if items == [] then []
    else Settings(items[..|items| - 1]) + if items[|items| - 1].Object? then [SettingOf(items[|items| - 1])] else []
  }

  function SettingKeys(settings: seq<Setting>): seq<string> {
    if settings == [] then [] else SettingKeys(settings[..|settings| - 1]) + [settings[|settings| - 1].key]
  }

  predicate AreSettings(rules: Rules, v: Json) {
    v.Absent? || (v.List? && (forall x <- v.items :: IsSetting(rules, x)) && AreNew(SettingKeys(Settings(v.items)), {}))
  }

  function SettingsOf(v: Json): seq<Setting> {
    if v.List? then Settings(v.items) else []
  }

  predicate AreParts(rules: Rules, declared: seq<ContextKind>, raw: RawManifest) {
    && AreAllContributions(rules, declared, raw.contributions)
    && AreHostContexts(rules, ContributionsOf(raw.contributions))
    && IsExecutable(rules, raw.executable, ContributionsOf(raw.contributions).tools != [])
  }

  predicate AreNames(rules: Rules, raw: RawManifest) {
    && raw.protocol == Text("nd.extension/1") && raw.apiVersion == Number(1)
    && IsText(raw.id, 128, rules.isPackageId) && IsText(raw.name, 128, Any) && IsText(raw.description, 2_000, Any)
    && IsText(raw.version, 64, rules.isVersion)
  }

  /** What the validator accepts. */
  predicate IsAcceptable(rules: Rules, raw: RawManifest) {
    && AreNames(rules, raw)
    && AreContexts(raw.contexts, true)
    && ArePermissions(rules, raw.permissions)
    && AreSettings(rules, raw.settings)
    && AreParts(rules, ContextsOf(raw.contexts), raw)
  }

  function PackageOf(raw: RawManifest): Package
    requires raw.contributions.Given?
  {
    Package(TextOf(raw.id), TextOf(raw.name), TextOf(raw.description), TextOf(raw.version), ContextsOf(raw.contexts),
            PermissionsOf(raw.permissions), SettingsOf(raw.settings), ContributionsOf(raw.contributions),
            ExecutableOf(raw.executable))
  }
}
