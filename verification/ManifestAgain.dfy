/** Validating what the validator returned: it is accepted again, and only white space left by clipping changes. */
module ManifestAgain {
  import opened Basics
  import opened Manifest
  import opened ManifestMeaning

  // ---------- A package as a manifest ----------

  function EncodeOption(o: Option<string>): Json {
    match o
    case None => Absent
    case Some(s) => Text(s)
  }

  function EncodeTexts(texts: seq<string>): (items: seq<Json>)
    ensures |items| == |texts|
    ensures forall i :: 0 <= i < |items| ==> items[i] == Text(texts[i])
  {
    seq(|texts|, i requires 0 <= i < |texts| => Text(texts[i]))
  }

  function EncodeAction(a: Action): Json {
    Object(BLANK_ITEM.(id := Text(a.id), title := Text(a.title), host := Text(a.host)))
  }

  function EncodeActions(actions: seq<Action>): (items: seq<Json>)
    ensures |items| == |actions|
    ensures forall i :: 0 <= i < |items| ==> items[i] == EncodeAction(actions[i])
  {
    seq(|actions|, i requires 0 <= i < |actions| => EncodeAction(actions[i]))
  }

  function ViewKindName(kind: ViewKind): string {
    match kind
    case ListView => "list"
    case DetailView => "detail"
    case WebView => "web"
  }

  function Encode(c: Contribution): Json {
    var base := BLANK_ITEM.(id := Text(c.id), title := Text(c.title), contexts := List(EncodeKinds(c.contexts)),
                            description := EncodeOption(c.description));
    match c
    case Tool(_, _, _, _, toolName) => Object(base.(toolName := Text(toolName)))
    case Skill(_, _, _, _, instructions) => Object(base.(instructions := Text(instructions)))
    case Command(_, _, _, _, host, keywords, openViewId, startsAgent) =>
      Object(base.(host := Text(host), keywords := if keywords == [] then Absent else List(EncodeTexts(keywords)),
                   openViewId := EncodeOption(openViewId), startsAgent := if startsAgent then Bool(true) else Absent))
    case View(_, _, _, _, kind, host, itemTitleKey, itemBodyKey, entry, refresh, actions) =>
      Object(base.(kind := Text(ViewKindName(kind)), host := EncodeOption(host),
                   itemTitleKey := EncodeOption(itemTitleKey),
                   itemBodyKey := EncodeOption(itemBodyKey), entry := EncodeOption(entry),
                   refreshIntervalMs := (match refresh case None => Absent case Some(n) => Number(n)),
                   actions := List(EncodeActions(actions))))
    case Workflow(_, _, _, _, pluginId) => Object(base.(pluginId := Text(pluginId)))
  }

  function EncodeAll(cs: seq<Contribution>): (items: seq<Json>)
    ensures |items| == |cs|
    ensures forall i :: 0 <= i < |items| ==> items[i] == Encode(cs[i])
  {
    seq(|cs|, i requires 0 <= i < |cs| => Encode(cs[i]))
  }

  function EncodeContributions(c: Contributions): RawContributions {
    Given(List(EncodeAll(c.tools)), List(EncodeAll(c.skills)), List(EncodeAll(c.commands)), List(EncodeAll(c.views)),
          List(EncodeAll(c.workflows)))
  }

  // ---------- What reading it again makes of it ----------

  /** Clipped texts lose white space at their end. */
  function Retrimmed(c: Contribution): Contribution {
    match c
    case Tool(id, title, contexts, description, toolName) =>
      Tool(id, title, contexts, Again(description, 500), toolName)
    case Skill(id, title, contexts, description, instructions) =>
      Skill(id, title, contexts, Again(description, 500), instructions)
    case Command(id, title, contexts, description, host, keywords, openViewId, startsAgent) =>
      Command(id, title, contexts, Again(description, 500), host, AgainAll(keywords), openViewId, startsAgent)
    case View(id, title, contexts, description, kind, host, itemTitleKey, itemBodyKey, entry, refresh, actions) =>
      View(id, title, contexts, Again(description, 500), kind, host, itemTitleKey, Again(itemBodyKey, 64), entry,
           refresh, actions)
    case Workflow(id, title, contexts, description, pluginId) =>
      Workflow(id, title, contexts, Again(description, 500), pluginId)
  }

  function AgainAll(keywords: seq<string>): (again: seq<string>)
    ensures |again| == |keywords|
    ensures forall i :: 0 <= i < |keywords| ==> again[i] == Clip(Trim(keywords[i]), 64)
  {
    seq(|keywords|, i requires 0 <= i < |keywords| => Clip(Trim(keywords[i]), 64))
  }

  lemma {:induction false} KeywordsAgain(keywords: seq<string>, n: nat)
    requires n <= |keywords| && forall k <- keywords :: IsClip(Some(k), 64)
    ensures Keywords(EncodeTexts(keywords)[..n]) == AgainAll(keywords)[..n]
  {
    if n > 0 {
      KeywordsAgain(keywords, n - 1);
      var items := EncodeTexts(keywords)[..n];
      assert items[..n - 1] == EncodeTexts(keywords)[..n - 1];
      assert keywords[n - 1] in keywords;
      ClipAgain(Some(keywords[n - 1]), 64);
      assert AgainAll(keywords)[..n] == AgainAll(keywords)[..n - 1] + [AgainAll(keywords)[n - 1]];
    }
  }

  lemma AllKeywordsAgain(keywords: seq<string>)
    requires AreClips(keywords)
    ensures KeywordsOf(if keywords == [] then Absent else List(EncodeTexts(keywords))) == AgainAll(keywords)
  {
    KeywordsAgain(keywords, |keywords|);
    assert EncodeTexts(keywords)[..|keywords|] == EncodeTexts(keywords);
    assert AgainAll(keywords)[..|keywords|] == AgainAll(keywords);
  }

  lemma ActionAgain(rules: Rules, a: Action)
    requires IsBuiltAction(rules, a)
    ensures IsAction(rules, EncodeAction(a)) && ActionOf(EncodeAction(a)) == a
  {
    TrimmedStays(a.title);
  }

  lemma OneMoreTaken<T>(s: seq<T>, n: nat)
    requires 0 < n <= |s|
    ensures s[..n] == s[..n - 1] + [s[n - 1]]
  {
  }

  lemma ActionsOneMore(items: seq<Json>, x: Json)
    ensures Actions(items + [x]) == Actions(items) + [ActionOf(x)]
  {
    assert (items + [x])[..|items|] == items;
  }

  lemma {:induction false} ActionsAgain(rules: Rules, actions: seq<Action>, n: nat)
    requires n <= |actions| && forall a <- actions :: IsBuiltAction(rules, a)
    ensures Actions(EncodeActions(actions)[..n]) == actions[..n]
  {
    if n > 0 {
      ActionsAgain(rules, actions, n - 1);
      assert actions[n - 1] in actions;
      ActionAgain(rules, actions[n - 1]);
      ActionsOneMore(EncodeActions(actions)[..n - 1], EncodeAction(actions[n - 1]));
      OneMoreTaken(EncodeActions(actions), n);
      OneMoreTaken(actions, n);
    }
  }

  lemma AllActionsAgain(rules: Rules, actions: seq<Action>)
    requires forall a <- actions :: IsBuiltAction(rules, a)
    ensures AreActions(rules, List(EncodeActions(actions))) && ActionsOf(List(EncodeActions(actions))) == actions
  {
    ActionsAgain(rules, actions, |actions|);
    assert EncodeActions(actions)[..|actions|] == EncodeActions(actions) && actions[..|actions|] == actions;
    forall x | x in EncodeActions(actions) ensures IsAction(rules, x) {
      var i :| 0 <= i < |actions| && EncodeActions(actions)[i] == x;
      assert actions[i] in actions;
      ActionAgain(rules, actions[i]);
    }
  }

  lemma ViewKindAgain(kind: ViewKind)
    ensures ViewKindOf(Text(ViewKindName(kind))) == kind
  {
  }

  lemma ViewAgain(rules: Rules, c: Contribution)
    requires c.View? && IsBuiltView(rules, c)
    ensures IsView(rules, Encode(c).item)
    ensures ViewOf(c.id, c.title, c.contexts, Again(c.description, 500), Encode(c).item) == Retrimmed(c)
  {
    AllActionsAgain(rules, c.actions);
    ViewKindAgain(c.viewKind);
    var item := Encode(c).item;
    assert item.kind == Text(ViewKindName(c.viewKind)) && item.actions == List(EncodeActions(c.actions));
    if c.viewKind.WebView? {
      TrimmedStays(c.entry.value);
    } else {
      TrimmedStays(c.itemTitleKey.value);
    }
  }

  lemma ContributionAgain(rules: Rules, declared: seq<ContextKind>, kind: ContributionKind, c: Contribution)
    requires IsBuilt(rules, declared, kind, c)
    ensures IsContribution(rules, declared, kind, Encode(c)) && ContributionOf(kind, Encode(c)) == Retrimmed(c)
  {
    TrimmedStays(c.title);
    ContextsStay(c.contexts, false);
    match kind
    case ToolKind => TrimmedStays(c.toolName);
    case SkillKind => TrimmedStays(c.instructions);
    case CommandKind =>
      AllKeywordsAgain(c.keywords);
      if c.openViewId.Some? {
        TrimmedStays(c.openViewId.value);
      }
    case ViewsKind => ViewAgain(rules, c);
    case WorkflowKind => TrimmedStays(c.pluginId);
  }

  function RetrimmedAll(cs: seq<Contribution>): (again: seq<Contribution>)
    ensures |again| == |cs|
    ensures forall i :: 0 <= i < |cs| ==> again[i] == Retrimmed(cs[i])
  {
    seq(|cs|, i requires 0 <= i < |cs| => Retrimmed(cs[i]))
  }

  lemma BuiltOneMore(kind: ContributionKind, items: seq<Json>, x: Json)
    requires x.Object?
    ensures Built(kind, items + [x]) == Built(kind, items) + [ContributionOf(kind, x)]
  {
    assert (items + [x])[..|items|] == items;
  }

  lemma OneMoreEncoded(cs: seq<Contribution>, n: nat)
    requires 0 < n <= |cs|
    ensures EncodeAll(cs)[..n] == EncodeAll(cs)[..n - 1] + [Encode(cs[n - 1])]
    ensures RetrimmedAll(cs)[..n] == RetrimmedAll(cs)[..n - 1] + [Retrimmed(cs[n - 1])]
  {
  }

  lemma {:induction false} ListAgain(rules: Rules, declared: seq<ContextKind>, kind: ContributionKind,
                                     cs: seq<Contribution>, n: nat)
    requires n <= |cs| && forall c <- cs :: IsBuilt(rules, declared, kind, c)
    ensures Built(kind, EncodeAll(cs)[..n]) == RetrimmedAll(cs)[..n]
  {
    if n > 0 {
      ListAgain(rules, declared, kind, cs, n - 1);
      ContributionAgain(rules, declared, kind, cs[n - 1]);
      BuiltOneMore(kind, EncodeAll(cs)[..n - 1], Encode(cs[n - 1]));
      OneMoreEncoded(cs, n);
    }
  }

  lemma EncodedAreContributions(rules: Rules, declared: seq<ContextKind>, kind: ContributionKind, cs: seq<Contribution>)
    requires forall c <- cs :: IsBuilt(rules, declared, kind, c)
    ensures forall x <- EncodeAll(cs) :: IsContribution(rules, declared, kind, x)
  {
    forall x | x in EncodeAll(cs) ensures IsContribution(rules, declared, kind, x) {
      var i :| 0 <= i < |cs| && EncodeAll(cs)[i] == x;
      assert cs[i] in cs;
      ContributionAgain(rules, declared, kind, cs[i]);
    }
  }

  lemma WholeListAgain(rules: Rules, declared: seq<ContextKind>, kind: ContributionKind, cs: seq<Contribution>)
    requires forall c <- cs :: IsBuilt(rules, declared, kind, c)
    ensures AreContributions(rules, declared, kind, List(EncodeAll(cs)))
            && BuiltOf(kind, List(EncodeAll(cs))) == RetrimmedAll(cs)
    ensures AllIds(RetrimmedAll(cs)) == AllIds(cs)
  {
    EncodedAreContributions(rules, declared, kind, cs);
    ListAgain(rules, declared, kind, cs, |cs|);
    assert EncodeAll(cs)[..|cs|] == EncodeAll(cs) && RetrimmedAll(cs)[..|cs|] == RetrimmedAll(cs);
    IdsStay(cs);
  }

  lemma {:induction false} IdsStay(cs: seq<Contribution>)
    ensures AllIds(RetrimmedAll(cs)) == AllIds(cs)
  {
    if cs != [] {
      IdsStay(cs[..|cs| - 1]);
      assert RetrimmedAll(cs)[..|cs| - 1] == RetrimmedAll(cs[..|cs| - 1]);
      assert IdsOf(Retrimmed(cs[|cs| - 1])) == IdsOf(cs[|cs| - 1]);
    }
  }

  function RetrimmedContributions(c: Contributions): Contributions {
    Contributions(RetrimmedAll(c.tools), RetrimmedAll(c.skills), RetrimmedAll(c.commands), RetrimmedAll(c.views),
                  RetrimmedAll(c.workflows))
  }

  // ---------- Settled texts ----------

  ghost predicate IsSettledText(o: Option<string>) {
    o.Some? ==> IsTrimmed(o.value)
  }

  /** No clipped text of the contribution ends in white space. */
  ghost predicate IsSettled(c: Contribution) {
    && IsSettledText(c.description)
    && (c.Command? ==> forall k <- c.keywords :: IsTrimmed(k))
    && (c.View? ==> IsSettledText(c.itemBodyKey))
  }

  lemma KeywordsSettledIff(keywords: seq<string>)
    requires forall k <- keywords :: IsClip(Some(k), 64)
    ensures AgainAll(keywords) == keywords <==> forall k <- keywords :: IsTrimmed(k)
    ensures AgainAll(AgainAll(keywords)) == AgainAll(keywords)
  {
    forall i | 0 <= i < |keywords|
      ensures AgainAll(keywords)[i] == keywords[i] <==> IsTrimmed(keywords[i])
      ensures AgainAll(AgainAll(keywords))[i] == AgainAll(keywords)[i]
    {
      assert keywords[i] in keywords;
      ClipAgain(Some(keywords[i]), 64);
    }
  }

  lemma SettledIff(rules: Rules, declared: seq<ContextKind>, kind: ContributionKind, c: Contribution)
    requires IsBuilt(rules, declared, kind, c)
    ensures Retrimmed(c) == c <==> IsSettled(c)
    ensures Retrimmed(Retrimmed(c)) == Retrimmed(c)
  {
    ClipAgain(c.description, 500);
    if c.Command? {
      KeywordsSettledIff(c.keywords);
    } else if c.View? {
      ClipAgain(c.itemBodyKey, 64);
    }
  }

  lemma AllSettledIff(rules: Rules, declared: seq<ContextKind>, kind: ContributionKind, cs: seq<Contribution>)
    requires forall c <- cs :: IsBuilt(rules, declared, kind, c)
    ensures RetrimmedAll(cs) == cs <==> forall c <- cs :: IsSettled(c)
    ensures RetrimmedAll(RetrimmedAll(cs)) == RetrimmedAll(cs)
  {
    forall i | 0 <= i < |cs|
      ensures RetrimmedAll(cs)[i] == cs[i] <==> IsSettled(cs[i])
      ensures RetrimmedAll(RetrimmedAll(cs))[i] == RetrimmedAll(cs)[i]
    {
      assert cs[i] in cs;
      SettledIff(rules, declared, kind, cs[i]);
    }
  }

  ghost predicate AreSettled(c: Contributions) {
    && (forall x <- c.tools :: IsSettled(x)) && (forall x <- c.skills :: IsSettled(x))
    && (forall x <- c.commands :: IsSettled(x))
    && (forall x <- c.views :: IsSettled(x)) && (forall x <- c.workflows :: IsSettled(x))
  }

  // ---------- Contributions again ----------

  lemma OpensAgain(c: Contribution, views: seq<Contribution>)
    requires OpensView(c, views)
    ensures OpensView(Retrimmed(c), RetrimmedAll(views))
  {
    if c.Command? && c.openViewId.Some? {
      var i :| 0 <= i < |views| && views[i].id == c.openViewId.value;
      assert RetrimmedAll(views)[i].id == c.openViewId.value;
    }
  }

  lemma ListsAgain(rules: Rules, p: Package)
    requires IsSound(rules, p)
    ensures var raw := EncodeContributions(p.contributions);
            AreLists(rules, p.contexts, raw) && ContributionsOf(raw) == RetrimmedContributions(p.contributions)
    ensures PackageIds(RetrimmedContributions(p.contributions)) == PackageIds(p.contributions)
  {
    var c := p.contributions;
    WholeListAgain(rules, p.contexts, ToolKind, c.tools);
    WholeListAgain(rules, p.contexts, SkillKind, c.skills);
    WholeListAgain(rules, p.contexts, CommandKind, c.commands);
    WholeListAgain(rules, p.contexts, ViewsKind, c.views);
    WholeListAgain(rules, p.contexts, WorkflowKind, c.workflows);
  }

  lemma ContributionsAgain(rules: Rules, p: Package)
    requires IsSound(rules, p)
    ensures var raw := EncodeContributions(p.contributions);
            AreAllContributions(rules, p.contexts, raw)
            && ContributionsOf(raw) == RetrimmedContributions(p.contributions)
    ensures AreHostContexts(rules, RetrimmedContributions(p.contributions))
  {
    var c, again := p.contributions, RetrimmedContributions(p.contributions);
    ListsAgain(rules, p);
    forall x | x in again.commands ensures OpensView(x, again.views) && HostsSupport(rules, x) {
      var i :| 0 <= i < |c.commands| && Retrimmed(c.commands[i]) == x;
      assert c.commands[i] in c.commands;
      OpensAgain(c.commands[i], c.views);
      HostsStaySupported(rules, c.commands[i]);
    }
    forall x | x in again.views ensures HostsSupport(rules, x) {
      var i :| 0 <= i < |c.views| && Retrimmed(c.views[i]) == x;
      assert c.views[i] in c.views;
      HostsStaySupported(rules, c.views[i]);
    }
  }

  lemma HostsStaySupported(rules: Rules, c: Contribution)
    requires IsHostedWell(rules, c)
    ensures HostsSupport(rules, Retrimmed(c))
  {
    assert HostsOf(Retrimmed(c)) == HostsOf(c) && Retrimmed(c).contexts == c.contexts;
  }

  lemma ContributionsSettledIff(rules: Rules, p: Package)
    requires IsSound(rules, p)
    ensures RetrimmedContributions(p.contributions) == p.contributions <==> AreSettled(p.contributions)
    ensures RetrimmedContributions(RetrimmedContributions(p.contributions)) == RetrimmedContributions(p.contributions)
  {
    var c := p.contributions;
    AllSettledIff(rules, p.contexts, ToolKind, c.tools);
    AllSettledIff(rules, p.contexts, SkillKind, c.skills);
    AllSettledIff(rules, p.contexts, CommandKind, c.commands);
    AllSettledIff(rules, p.contexts, ViewsKind, c.views);
    AllSettledIff(rules, p.contexts, WorkflowKind, c.workflows);
  }

  // ---------- Settings, permissions and the runtime again ----------

  predicate IsBuiltSetting(rules: Rules, s: Setting) {
    && IsPlain(s.key, 64) && rules.isSettingKey(s.key) && IsPlain(s.title, 128)
    && s.valueType in ["string", "boolean", "number"]
    && (s.defaultValue.Absent? || s.defaultValue.Text? || s.defaultValue.Bool? || s.defaultValue.Number?)
    && (s.defaultValue.Text? ==> s.valueType == "string") && (s.defaultValue.Bool? ==> s.valueType == "boolean")
    && (s.defaultValue.Number? ==> s.valueType == "number")
    && IsClip(s.description, 500)
  }

  lemma {:induction false} SettingsAreBuilt(rules: Rules, items: seq<Json>)
    requires forall x <- items :: IsSetting(rules, x)
    ensures forall s <- Settings(items) :: IsBuiltSetting(rules, s)
  {
    if items != [] {
      var x := items[|items| - 1];
      assert IsSetting(rules, x);
      SettingsAreBuilt(rules, items[..|items| - 1]);
      TrimIsTrimmed(x.item.key.s);
      TrimIsTrimmed(x.item.title.s);
      ClippedIsClip(x.item.description, 500);
    }
  }

  function EncodeSetting(s: Setting): Json {
    Object(BLANK_ITEM.(key := Text(s.key), title := Text(s.title), valueType := Text(s.valueType),
                       defaultValue := s.defaultValue, description := EncodeOption(s.description)))
  }

  function EncodeSettings(settings: seq<Setting>): (items: seq<Json>)
    ensures |items| == |settings|
    ensures forall i :: 0 <= i < |items| ==> items[i] == EncodeSetting(settings[i])
  {
    seq(|settings|, i requires 0 <= i < |settings| => EncodeSetting(settings[i]))
  }

  function RetrimmedSettings(settings: seq<Setting>): (again: seq<Setting>)
    ensures |again| == |settings|
    ensures forall i :: 0 <= i < |settings| ==>
              again[i] == settings[i].(description := Again(settings[i].description, 500))
  {
    seq(|settings|, i requires 0 <= i < |settings| => settings[i].(description := Again(settings[i].description, 500)))
  }

  lemma SettingAgain(rules: Rules, s: Setting)
    requires IsBuiltSetting(rules, s)
    ensures IsSetting(rules, EncodeSetting(s))
            && SettingOf(EncodeSetting(s)) == s.(description := Again(s.description, 500))
  {
    TrimmedStays(s.key);
    TrimmedStays(s.title);
  }

  lemma OneMoreEncodedSetting(settings: seq<Setting>, n: nat)
    requires 0 < n <= |settings|
    ensures EncodeSettings(settings)[..n] == EncodeSettings(settings)[..n - 1] + [EncodeSetting(settings[n - 1])]
    ensures RetrimmedSettings(settings)[..n] == RetrimmedSettings(settings)[..n - 1]
            + [RetrimmedSettings(settings)[n - 1]]
  {
  }

  lemma SettingsOneMore(items: seq<Json>, x: Json)
    requires x.Object?
    ensures Settings(items + [x]) == Settings(items) + [SettingOf(x)]
  {
    assert (items + [x])[..|items|] == items;
  }

  lemma {:induction false} SettingListAgain(rules: Rules, settings: seq<Setting>, n: nat)
    requires n <= |settings| && forall s <- settings :: IsBuiltSetting(rules, s)
    ensures Settings(EncodeSettings(settings)[..n]) == RetrimmedSettings(settings)[..n]
  {
    if n > 0 {
      SettingListAgain(rules, settings, n - 1);
      SettingAgain(rules, settings[n - 1]);
      SettingsOneMore(EncodeSettings(settings)[..n - 1], EncodeSetting(settings[n - 1]));
      OneMoreEncodedSetting(settings, n);
    }
  }

  lemma {:induction false} KeysStay(settings: seq<Setting>)
    ensures SettingKeys(RetrimmedSettings(settings)) == SettingKeys(settings)
  {
    if settings != [] {
      KeysStay(settings[..|settings| - 1]);
      assert RetrimmedSettings(settings)[..|settings| - 1] == RetrimmedSettings(settings[..|settings| - 1]);
    }
  }

  lemma EncodedAreSettings(rules: Rules, settings: seq<Setting>)
    requires forall s <- settings :: IsBuiltSetting(rules, s)
    ensures forall x <- EncodeSettings(settings) :: IsSetting(rules, x)
  {
    forall x | x in EncodeSettings(settings) ensures IsSetting(rules, x) {
      var i :| 0 <= i < |settings| && EncodeSettings(settings)[i] == x;
      assert settings[i] in settings;
      SettingAgain(rules, settings[i]);
    }
  }

  predicate AreBuiltSettings(rules: Rules, settings: seq<Setting>) {
    (forall s <- settings :: IsBuiltSetting(rules, s)) && AreNew(SettingKeys(settings), {})
  }

  lemma SettingsAgain(rules: Rules, settings: seq<Setting>)
    requires AreBuiltSettings(rules, settings)
    ensures AreSettings(rules, List(EncodeSettings(settings)))
            && SettingsOf(List(EncodeSettings(settings))) == RetrimmedSettings(settings)
    ensures RetrimmedSettings(settings) == settings <==> forall s <- settings :: IsSettledText(s.description)
    ensures RetrimmedSettings(RetrimmedSettings(settings)) == RetrimmedSettings(settings)
  {
    EncodedAreSettings(rules, settings);
    KeysStay(settings);
    SettingListAgain(rules, settings, |settings|);
    assert EncodeSettings(settings)[..|settings|] == EncodeSettings(settings);
    assert RetrimmedSettings(settings)[..|settings|] == RetrimmedSettings(settings);
    forall i | 0 <= i < |settings|
      ensures RetrimmedSettings(settings)[i] == settings[i] <==> IsSettledText(settings[i].description)
      ensures RetrimmedSettings(RetrimmedSettings(settings))[i] == RetrimmedSettings(settings)[i]
    {
      assert settings[i] in settings;
      ClipAgain(settings[i].description, 500);
    }
  }

  predicate AreBuiltPermissions(rules: Rules, permissions: seq<string>) {
    AreDistinct(permissions) && forall x <- permissions :: x in rules.permissions
  }

  lemma {:induction false} PermissionsAreBuilt(rules: Rules, items: seq<Json>)
    requires forall x <- items :: IsPermission(rules, x)
    ensures AreBuiltPermissions(rules, Unrepeated(items))
  {
    if items != [] {
      PermissionsAreBuilt(rules, items[..|items| - 1]);
      assert IsPermission(rules, items[|items| - 1]);
    }
  }

  lemma {:induction false} UnrepeatedAgain(texts: seq<string>, n: nat)
    requires n <= |texts| && AreDistinct(texts)
    ensures Unrepeated(EncodeTexts(texts)[..n]) == texts[..n]
  {
    if n > 0 {
      UnrepeatedAgain(texts, n - 1);
      assert EncodeTexts(texts)[..n][..n - 1] == EncodeTexts(texts)[..n - 1];
      assert texts[..n] == texts[..n - 1] + [texts[n - 1]];
    }
  }

  lemma PermissionsAgain(rules: Rules, permissions: seq<string>)
    requires AreBuiltPermissions(rules, permissions)
    ensures ArePermissions(rules, List(EncodeTexts(permissions)))
            && PermissionsOf(List(EncodeTexts(permissions))) == permissions
  {
    UnrepeatedAgain(permissions, |permissions|);
    assert EncodeTexts(permissions)[..|permissions|] == EncodeTexts(permissions)
           && permissions[..|permissions|] == permissions;
    forall x | x in EncodeTexts(permissions) ensures IsPermission(rules, x) {
      var i :| 0 <= i < |permissions| && EncodeTexts(permissions)[i] == x;
      assert permissions[i] in permissions;
    }
  }

  predicate IsBuiltRuntime(rules: Rules, r: Runtime) {
    && IsPlain(r.command, 1_024) && |r.args| <= 64 && (forall a <- r.args :: |a| <= 4_096)
    && (forall k <- r.env :: k != "__proto__" && rules.isEnvName(k) && rules.isEnvName(r.env[k]))
  }

  lemma {:induction false} TextsOf(items: seq<Json>)
    requires forall x <- items :: x.Text? && |x.s| <= 4_096
    ensures |Texts(items)| == |items| && forall a <- Texts(items) :: |a| <= 4_096
  {
    if items != [] {
      TextsOf(items[..|items| - 1]);
      assert items[|items| - 1] in items;
    }
  }

  lemma RuntimeIsBuilt(rules: Rules, raw: RawExecutable, hasTools: bool)
    requires IsExecutable(rules, raw, hasTools)
    ensures var r := ExecutableOf(raw); (r.Some? ==> IsBuiltRuntime(rules, r.value)) && (hasTools ==> r.Some?)
  {
    if raw.Executable? {
      TrimIsTrimmed(raw.command.s);
      TextsOf(raw.args.items);
    }
  }

  function EncodeRuntime(r: Option<Runtime>): RawExecutable {
    match r
    case None => NoExecutable
    case Some(x) =>
      Executable(Text("mcp-stdio"), Text(x.command), List(EncodeTexts(x.args)),
                 Env(map k | k in x.env :: Text(x.env[k])))
  }

  lemma {:induction false} TextsAgain(texts: seq<string>, n: nat)
    requires n <= |texts|
    ensures Texts(EncodeTexts(texts)[..n]) == texts[..n]
  {
    if n > 0 {
      TextsAgain(texts, n - 1);
      assert EncodeTexts(texts)[..n][..n - 1] == EncodeTexts(texts)[..n - 1];
      assert texts[..n] == texts[..n - 1] + [texts[n - 1]];
    }
  }

  lemma RuntimeAgain(rules: Rules, r: Option<Runtime>, hasTools: bool)
    requires (r.Some? ==> IsBuiltRuntime(rules, r.value)) && (hasTools ==> r.Some?)
    ensures IsExecutable(rules, EncodeRuntime(r), hasTools) && ExecutableOf(EncodeRuntime(r)) == r
  {
    if r.Some? {
      TrimmedStays(r.value.command);
      ArgumentsAgain(r.value.args);
      EnvironmentAgain(rules, r.value.env);
    }
  }

  lemma ArgumentsAgain(args: seq<string>)
    requires forall a <- args :: |a| <= 4_096
    ensures forall x <- EncodeTexts(args) :: x.Text? && |x.s| <= 4_096
    ensures Texts(EncodeTexts(args)) == args
  {
    TextsAgain(args, |args|);
    assert EncodeTexts(args)[..|args|] == EncodeTexts(args) && args[..|args|] == args;
    assert forall i :: 0 <= i < |args| ==> args[i] in args;
  }

  lemma EnvironmentAgain(rules: Rules, env: map<string, string>)
    requires forall k <- env :: k != "__proto__" && rules.isEnvName(k) && rules.isEnvName(env[k])
    ensures var raw := Env(map k | k in env :: Text(env[k])); IsEnv(rules, raw) && EnvOf(raw) == env
  {
  }

  // ---------- The whole package again ----------

  function EncodePackage(p: Package): RawManifest {
    RawManifest(Text("nd.extension/1"), Text(p.id), Text(p.name), Text(p.description), Text(p.version), Number(1),
                List(EncodeKinds(p.contexts)), List(EncodeTexts(p.permissions)), List(EncodeSettings(p.settings)),
                EncodeContributions(p.contributions), EncodeRuntime(p.executable))
  }

  predicate IsNamed(rules: Rules, p: Package) {
    && IsPlain(p.id, 128) && rules.isPackageId(p.id) && IsPlain(p.name, 128) && IsPlain(p.description, 2_000)
    && IsPlain(p.version, 64) && rules.isVersion(p.version)
  }

  /** Everything an accepted package is. */
  predicate IsComplete(rules: Rules, p: Package) {
    && IsNamed(rules, p) && IsSound(rules, p)
    && AreBuiltPermissions(rules, p.permissions) && AreBuiltSettings(rules, p.settings)
    && (p.executable.Some? ==> IsBuiltRuntime(rules, p.executable.value))
  }

  lemma AcceptedIsNamed(rules: Rules, raw: RawManifest)
    requires IsAcceptable(rules, raw)
    ensures IsNamed(rules, PackageOf(raw))
  {
    TrimIsTrimmed(raw.id.s);
    TrimIsTrimmed(raw.name.s);
    TrimIsTrimmed(raw.description.s);
    TrimIsTrimmed(raw.version.s);
  }

  lemma AcceptedListsAreBuilt(rules: Rules, permissions: Json, settings: Json)
    requires ArePermissions(rules, permissions) && AreSettings(rules, settings)
    ensures AreBuiltPermissions(rules, PermissionsOf(permissions)) && AreBuiltSettings(rules, SettingsOf(settings))
  {
    if permissions.List? {
      PermissionsAreBuilt(rules, permissions.items);
    }
    if settings.List? {
      SettingsAreBuilt(rules, settings.items);
    }
  }

  lemma AcceptedIsComplete(rules: Rules, raw: RawManifest)
    requires IsAcceptable(rules, raw)
    ensures IsComplete(rules, PackageOf(raw))
  {
    AcceptedIsNamed(rules, raw);
    AcceptedIsSound(rules, raw);
    AcceptedListsAreBuilt(rules, raw.permissions, raw.settings);
    RuntimeIsBuilt(rules, raw.executable, ContributionsOf(raw.contributions).tools != []);
  }

  function RetrimmedPackage(p: Package): Package {
    p.(settings := RetrimmedSettings(p.settings), contributions := RetrimmedContributions(p.contributions))
  }

  ghost predicate AreSettledSettings(settings: seq<Setting>) {
    forall s <- settings :: IsSettledText(s.description)
  }

  /** No clipped text of the package ends in white space. */
  ghost predicate IsSettledPackage(p: Package) {
    AreSettled(p.contributions) && AreSettledSettings(p.settings)
  }

  lemma NamesStay(rules: Rules, p: Package)
    requires IsNamed(rules, p)
    ensures IsText(Text(p.id), 128, rules.isPackageId) && TextOf(Text(p.id)) == p.id
    ensures IsText(Text(p.name), 128, Any) && TextOf(Text(p.name)) == p.name
    ensures IsText(Text(p.description), 2_000, Any) && TextOf(Text(p.description)) == p.description
    ensures IsText(Text(p.version), 64, rules.isVersion) && TextOf(Text(p.version)) == p.version
  {
    TextStays(p.id, 128, rules.isPackageId);
    TextStays(p.name, 128, Any);
    TextStays(p.description, 2_000, Any);
    TextStays(p.version, 64, rules.isVersion);
  }

  lemma PackageAgain(rules: Rules, p: Package)
    requires IsComplete(rules, p)
    ensures IsAcceptable(rules, EncodePackage(p)) && PackageOf(EncodePackage(p)) == RetrimmedPackage(p)
  {
    NamesStay(rules, p);
    ContextsStay(p.contexts, true);
    PermissionsAgain(rules, p.permissions);
    SettingsAgain(rules, p.settings);
    ContributionsAgain(rules, p);
    RuntimeAgain(rules, p.executable, RetrimmedContributions(p.contributions).tools != []);
  }

  lemma PackageSettledIff(rules: Rules, p: Package)
    requires IsComplete(rules, p)
    ensures RetrimmedPackage(p) == p <==> IsSettledPackage(p)
    ensures RetrimmedPackage(RetrimmedPackage(p)) == RetrimmedPackage(p)
  {
    SettingsAgain(rules, p.settings);
    ContributionsSettledIff(rules, p);
  }

  /** An accepted package is accepted again. It comes back as it was exactly when no clipped text of it ends
      in white space, and whatever the second validation returns the third one leaves alone. */
  lemma RevalidationSettles(rules: Rules, raw: RawManifest)
    requires IsAcceptable(rules, raw)
    ensures var p := PackageOf(raw);
            && IsAcceptable(rules, EncodePackage(p))
            && (PackageOf(EncodePackage(p)) == p <==> IsSettledPackage(p))
            && var again := PackageOf(EncodePackage(p));
            && IsAcceptable(rules, EncodePackage(again)) && PackageOf(EncodePackage(again)) == again
  {
    var p := PackageOf(raw);
    AcceptedIsComplete(rules, raw);
    PackageAgain(rules, p);
    PackageSettledIff(rules, p);
    AcceptedIsComplete(rules, EncodePackage(p));
    PackageAgain(rules, RetrimmedPackage(p));
  }

  // ---------- Which manifests come back as they were ----------

  /** Longer than the limit, with white space as the last character within it. */
  predicate IsCutBehindSpace(v: Json, max: nat)
    requires max > 0
  {
    v.Text? && |Trim(v.s)| > max && IsSpace(Trim(v.s)[max - 1])
  }

  lemma ClippedIsSettledIff(v: Json, max: nat)
    requires max > 0
    ensures IsSettledText(Clipped(v, max)) <==> !IsCutBehindSpace(v, max)
  {
    if v.Text? {
      TrimIsTrimmed(v.s);
    }
  }

  /** Only the first 32 keywords that are not blank are kept. */
  predicate KeywordsComeBack(items: seq<Json>, n: nat)
    requires n <= |items|
  {
    forall i :: 0 <= i < n && |Keywords(items[..i])| < 32 ==> !IsCutBehindSpace(items[i], 64)
  }

  ghost predicate AreTrimmed(texts: seq<string>) {
    forall k <- texts :: IsTrimmed(k)
  }

  lemma OneKeywordMore(words: seq<string>, x: Json)
    ensures var more := words + if Clipped(x, 64).Some? then [Clipped(x, 64).value] else [];
            AreTrimmed(FirstOf(more, 32))
            <==> AreTrimmed(FirstOf(words, 32)) && (|words| < 32 ==> !IsCutBehindSpace(x, 64))
  {
    ClippedIsSettledIff(x, 64);
    if Clipped(x, 64).None? {
      assert words + [] == words;
    } else if |words| >= 32 {
      assert FirstOf(words + [Clipped(x, 64).value], 32) == FirstOf(words, 32);
    } else {
      var more := words + [Clipped(x, 64).value];
      assert FirstOf(more, 32) == more && FirstOf(words, 32) == words;
      assert more[|words|] == Clipped(x, 64).value;
    }
  }

  lemma {:induction false} KeywordsComeBackIff(items: seq<Json>, n: nat)
    requires n <= |items|
    ensures AreTrimmed(FirstOf(Keywords(items[..n]), 32)) <==> KeywordsComeBack(items, n)
  {
    if n > 0 {
      KeywordsComeBackIff(items, n - 1);
      assert items[..n][..n - 1] == items[..n - 1];
      OneKeywordMore(Keywords(items[..n - 1]), items[n - 1]);
    }
  }

  predicate ItemComesBack(kind: ContributionKind, item: Item) {
    && !IsCutBehindSpace(item.description, 500)
    && (kind.CommandKind? && item.keywords.List? ==> KeywordsComeBack(item.keywords.items, |item.keywords.items|))
    && (kind.ViewsKind? && !ViewKindOf(item.kind).WebView? ==> !IsCutBehindSpace(item.itemBodyKey, 64))
  }

  lemma ItemComesBackIff(kind: ContributionKind, item: Item)
    ensures IsSettled(ContributionOf(kind, Object(item))) <==> ItemComesBack(kind, item)
  {
    ClippedIsSettledIff(item.description, 500);
    match kind
    case CommandKind =>
      if item.keywords.List? {
        var items := item.keywords.items;
        KeywordsComeBackIff(items, |items|);
        assert items[..|items|] == items;
      }
    case ViewsKind => ClippedIsSettledIff(item.itemBodyKey, 64);
    case _ =>
  }

  predicate ListComesBack(kind: ContributionKind, v: Json) {
    v.List? ==> forall x <- v.items :: x.Object? ==> ItemComesBack(kind, x.item)
  }

  ghost predicate AreAllSettled(cs: seq<Contribution>) {
    forall c <- cs :: IsSettled(c)
  }

  lemma OneContributionMore(cs: seq<Contribution>, c: Contribution)
    ensures AreAllSettled(cs + [c]) <==> AreAllSettled(cs) && IsSettled(c)
  {
    assert (cs + [c])[|cs|] == c;
  }

  lemma OneItemMore(kind: ContributionKind, items: seq<Json>, x: Json)
    ensures ListComesBack(kind, List(items + [x]))
            <==> ListComesBack(kind, List(items)) && (x.Object? ==> ItemComesBack(kind, x.item))
  {
    assert (items + [x])[|items|] == x;
  }

  lemma {:induction false} ItemsComeBackIff(kind: ContributionKind, items: seq<Json>)
    ensures AreAllSettled(Built(kind, items)) <==> ListComesBack(kind, List(items))
  {
    if items != [] {
      var before, x := items[..|items| - 1], items[|items| - 1];
      ItemsComeBackIff(kind, before);
      OneItemMore(kind, before, x);
      assert items == before + [x];
      if x.Object? {
        ItemComesBackIff(kind, x.item);
        BuiltOneMore(kind, before, x);
        OneContributionMore(Built(kind, before), ContributionOf(kind, x));
      } else {
        assert Built(kind, items) == Built(kind, before);
      }
    }
  }

  lemma ListComesBackIff(kind: ContributionKind, v: Json)
    ensures AreAllSettled(BuiltOf(kind, v)) <==> ListComesBack(kind, v)
  {
    if v.List? {
      ItemsComeBackIff(kind, v.items);
    }
  }

  predicate SettingsComeBack(v: Json) {
    v.List? ==> forall x <- v.items :: x.Object? ==> !IsCutBehindSpace(x.item.description, 500)
  }

  lemma OneSettingMore(settings: seq<Setting>, s: Setting)
    ensures AreSettledSettings(settings + [s]) <==> AreSettledSettings(settings) && IsSettledText(s.description)
  {
    assert (settings + [s])[|settings|] == s;
  }

  lemma {:induction false} SettingItemsComeBackIff(items: seq<Json>)
    ensures AreSettledSettings(Settings(items)) <==> SettingsComeBack(List(items))
  {
    if items != [] {
      var before, x := items[..|items| - 1], items[|items| - 1];
      SettingItemsComeBackIff(before);
      assert items == before + [x];
      if x.Object? {
        ClippedIsSettledIff(x.item.description, 500);
        SettingsOneMore(before, x);
        OneSettingMore(Settings(before), SettingOf(x));
      } else {
        assert Settings(items) == Settings(before);
      }
    }
  }

  /** No description, no keyword that is kept and no body key that counts is cut behind white space. */
  predicate ComesBack(raw: RawManifest) {
    && SettingsComeBack(raw.settings)
    && (raw.contributions.Given? ==>
          && ListComesBack(ToolKind, raw.contributions.tools) && ListComesBack(SkillKind, raw.contributions.skills)
          && ListComesBack(CommandKind, raw.contributions.commands)
          && ListComesBack(ViewsKind, raw.contributions.views)
          && ListComesBack(WorkflowKind, raw.contributions.workflows))
  }

  lemma ContributionsComeBackIff(raw: RawContributions)
    requires raw.Given?
    ensures AreSettled(ContributionsOf(raw))
            <==> && ListComesBack(ToolKind, raw.tools) && ListComesBack(SkillKind, raw.skills)
                 && ListComesBack(CommandKind, raw.commands) && ListComesBack(ViewsKind, raw.views)
                 && ListComesBack(WorkflowKind, raw.workflows)
  {
    ListComesBackIff(ToolKind, raw.tools);
    ListComesBackIff(SkillKind, raw.skills);
    ListComesBackIff(CommandKind, raw.commands);
    ListComesBackIff(ViewsKind, raw.views);
    ListComesBackIff(WorkflowKind, raw.workflows);
  }

  /** For every accepted manifest: its package comes back from a second validation as it was exactly when no text that
      is clipped is longer than its limit with white space as the last character within it. */
  lemma ManifestComesBackIff(rules: Rules, raw: RawManifest)
    requires IsAcceptable(rules, raw)
    ensures PackageOf(EncodePackage(PackageOf(raw))) == PackageOf(raw) <==> ComesBack(raw)
  {
    RevalidationSettles(rules, raw);
    ContributionsComeBackIff(raw.contributions);
    if raw.settings.List? {
      SettingItemsComeBackIff(raw.settings.items);
    }
  }

  // ---------- A package that does not come back as it was ----------

  /** A package of one skill with this description. */
  function OneSkill(id: string, version: string, skill: string, description: string): RawManifest {
    var personal := List([Text("personal")]);
    var item := BLANK_ITEM.(id := Text(skill), title := Text("Skill"), description := Text(description),
                            contexts := personal, instructions := Text("Do it."));
    RawManifest(Text("nd.extension/1"), Text(id), Text("One skill"), Text("A skill."), Text(version), Number(1),
                personal, Absent, Absent, Given(Absent, List([Object(item)]), Absent, Absent, Absent), NoExecutable)
  }

  lemma FixedTexts()
    ensures Trim("Skill") == "Skill" && Trim("Do it.") == "Do it."
    ensures Trim("One skill") == "One skill" && Trim("A skill.") == "A skill."
  {
    TrimmedStays("Skill");
    TrimmedStays("Do it.");
    TrimmedStays("One skill");
    TrimmedStays("A skill.");
  }

  lemma PersonalContexts()
    ensures var personal := List([Text("personal")]);
            AreContexts(personal, true) && AreContexts(personal, false) && ContextsOf(personal) == [Personal]
  {
    var items := [Text("personal")];
    assert "personal" == KindName(Personal);
    assert items[..0] == [] && Kinds(items[..0]) == [];
    assert IsKindName(items[0]);
  }

  lemma OneSkillIsBuilt(id: string, version: string, skill: string, description: string)
    ensures var raw := OneSkill(id, version, skill, description).contributions;
            var built := Skill(Trim(skill), "Skill", [Personal], Clipped(Text(description), 500), "Do it.");
            ContributionsOf(raw) == Contributions([], [built], [], [], [])
  {
    FixedTexts();
    PersonalContexts();
    var items := OneSkill(id, version, skill, description).contributions.skills.items;
    assert |items| == 1 && items[..|items| - 1] == [];
    assert Built(SkillKind, []) == [];
    assert Built(SkillKind, items) == [ContributionOf(SkillKind, items[0])];
  }

  lemma OneSkillIsAContribution(rules: Rules, id: string, version: string, skill: string, description: string)
    requires IsId(rules, Text(skill))
    ensures var raw := OneSkill(id, version, skill, description).contributions;
            AreContributions(rules, [Personal], SkillKind, raw.skills)
  {
    FixedTexts();
    PersonalContexts();
    var item := OneSkill(id, version, skill, description).contributions.skills.items[0];
    assert IsContribution(rules, [Personal], SkillKind, item);
  }

  lemma OneIdIsNew(skill: Contribution)
    requires skill.Skill?
    ensures var c := Contributions([], [skill], [], [], []); PackageIds(c) == [skill.id] && AreNew(PackageIds(c), {})
  {
    assert [skill][..0] == [];
    assert AllIds([skill]) == AllIds([]) + IdsOf(skill) == [skill.id];
  }

  lemma OneSkillIsAcceptable(rules: Rules, id: string, version: string, skill: string, description: string)
    requires IsText(Text(id), 128, rules.isPackageId) && IsText(Text(version), 64, rules.isVersion)
             && IsId(rules, Text(skill))
    ensures IsAcceptable(rules, OneSkill(id, version, skill, description))
  {
    FixedTexts();
    PersonalContexts();
    OneSkillIsBuilt(id, version, skill, description);
    OneSkillIsAContribution(rules, id, version, skill, description);
    OneIdIsNew(Skill(Trim(skill), "Skill", [Personal], Clipped(Text(description), 500), "Do it."));
  }

  lemma OneSkillItem(id: string, version: string, skill: string, description: string)
    ensures ComesBack(OneSkill(id, version, skill, description)) <==> !IsCutBehindSpace(Text(description), 500)
  {
    var items := OneSkill(id, version, skill, description).contributions.skills.items;
    assert items[0] in items && forall x <- items :: x == items[0];
    assert items[0].item.description == Text(description);
  }

  /** For every such package that the rules admit: it comes back from a second validation as it was unless its
      description is longer than the limit and has white space as the last character within it. */
  lemma OneSkillComesBackIff(rules: Rules, id: string, version: string, skill: string, description: string)
    requires IsText(Text(id), 128, rules.isPackageId) && IsText(Text(version), 64, rules.isVersion)
             && IsId(rules, Text(skill))
    ensures var raw := OneSkill(id, version, skill, description);
            && IsAcceptable(rules, raw)
            && (PackageOf(EncodePackage(PackageOf(raw))) == PackageOf(raw)
                <==> !(|Trim(description)| > 500 && IsSpace(Trim(description)[499])))
  {
    OneSkillIsAcceptable(rules, id, version, skill, description);
    ManifestComesBackIff(rules, OneSkill(id, version, skill, description));
    OneSkillItem(id, version, skill, description);
  }

  /** There are such descriptions, so validating again can change an accepted package under any rules that admit one. */
  lemma ValidatingAgainCanChangeAPackage(rules: Rules, id: string, version: string, skill: string)
    requires IsText(Text(id), 128, rules.isPackageId) && IsText(Text(version), 64, rules.isVersion)
             && IsId(rules, Text(skill))
    ensures exists raw :: IsAcceptable(rules, raw) && PackageOf(EncodePackage(PackageOf(raw))) != PackageOf(raw)
  {
    var description := seq(501, i => if i == 499 then ' ' else 'x');
    TrimmedStays(description);
    OneSkillComesBackIff(rules, id, version, skill, description);
  }
}
