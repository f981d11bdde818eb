/** The settings model, the trusted merge of user and project files, and the layered load. */
module Config {
  import opened Collections

  // ------------------------------------------------------------------
  // Data model
  // ------------------------------------------------------------------

  /** A policy name; `Other` stands for every string outside the known table. */
  datatype PolicyName = Experimental | Learning | Balanced | Normal | Strict | Other(name: string)

  datatype ApprovalMode = FullAuto | AutoEdit | Suggest | OtherMode(name: string)

  datatype ShellPolicy = ShellPolicy(
    defaultTimeoutSeconds: int,
    allowReadonlyWithoutConfirm: bool,
    requireConfirmForMedium: bool,
    blockHighRisk: bool,
    allowedCommands: seq<string>)

  datatype SandboxPolicy = SandboxPolicy(
    restrictToProjectRoot: bool,
    networkEnabled: bool,
    networkAllowlist: seq<string>,
    sensitiveNames: seq<string>)

  datatype HookConfig = HookConfig(
    beforeCommand: seq<string>,
    afterEdit: seq<string>,
    afterTest: seq<string>,
    afterApply: seq<string>,
    allowMediumAfterApply: bool)

  datatype LlmConfig = LlmConfig(provider: string, model: string, baseUrl: string, apiKey: Option<string>)

  /** A resolved path, as its components from the file-system root. */
  type ResolvedPath = seq<string>

  datatype TrustRoot = TrustRoot(path: ResolvedPath, policy: PolicyName, includeSubdirectories: bool)

  datatype CostConfig = CostConfig(maxTokensPerSession: Option<int>, fallbackOnUsd: Option<real>)

  datatype ApprovalConfig = ApprovalConfig(
    mode: ApprovalMode,
    autoMaxFiles: int,
    autoMaxChangedLines: int,
    neverAutoPaths: seq<string>)

  datatype FormatterConfig = FormatterConfig(enabled: bool, commands: seq<string>)

  datatype Settings = Settings(
    sacDir: string,
    maxTreeFiles: int,
    maxFileLines: int,
    maxFileBytes: int,
    maxContextChars: int,
    policy: PolicyName,
    contextGitPerFile: bool,
    shell: ShellPolicy,
    sandbox: SandboxPolicy,
    hooks: HookConfig,
    llm: LlmConfig,
    trustRoots: seq<TrustRoot>,
    cost: CostConfig,
    approval: ApprovalConfig,
    formatter: FormatterConfig)

  const DEFAULTS: Settings := Settings(
    ".sac", 200, 300, 200_000, 40_000, Balanced, false,
    ShellPolicy(30, true, true, true, ["pwd", "ls", "echo", "git"]),
    SandboxPolicy(true, false, [], [".env", ".ssh", ".aws", "id_rsa", "id_dsa", "credentials", "token"]),
    HookConfig([], [], [], [], false),
    LlmConfig("mock", "gpt-4.1-mini", "https://api.openai.com/v1/chat/completions", None),
    [],
    CostConfig(None, None),
    ApprovalConfig(Suggest, 1, 30, [".env", ".sac/", "pyproject.toml", "uv.lock"]),
    FormatterConfig(false, []))

  // ------------------------------------------------------------------
  // Policy names
  // ------------------------------------------------------------------

  predicate IsKnownPolicy(name: PolicyName) {
    !name.Other?
  }

  /** The order used for comparison: an unknown name counts as balanced. */
  function Rank(name: PolicyName): int {
    match name
    case Experimental | Learning => 0
    case Balanced | Normal | Other(_) => 1
    case Strict => 2
  }

  function NormalizePolicyName(name: PolicyName): PolicyName {
    match name
    case Normal => Balanced
    case Learning => Experimental
    case _ => name
  }

  function StricterPolicy(left: PolicyName, right: PolicyName): PolicyName {
    if !IsKnownPolicy(right) then left
    else if Rank(left) >= Rank(right) then left
    else right
  }

  /** An unknown right-hand name is ignored; otherwise the ranks are joined. */
  lemma StricterPolicyRank(left: PolicyName, right: PolicyName)
    ensures Rank(StricterPolicy(left, right)) ==
            if IsKnownPolicy(right) then MaxInt(Rank(left), Rank(right)) else Rank(left)
    ensures StricterPolicy(left, right) in {left, right}
  {
  }

  function ApprovalModeOrder(mode: ApprovalMode): int {
    match mode
    case FullAuto => 0
    case AutoEdit => 1
    case Suggest | OtherMode(_) => 2
  }

  function StricterApprovalMode(left: ApprovalMode, right: ApprovalMode): ApprovalMode {
    if ApprovalModeOrder(left) >= ApprovalModeOrder(right) then left else right
  }

  // ------------------------------------------------------------------
  // The merge
  // ------------------------------------------------------------------

  function LowerCap(user: Option<int>, project: Option<int>): Option<int> {
    if user.None? then project
    else if project.None? then user
    else Some(MinInt(user.value, project.value))
  }

  function LowerUsd(user: Option<real>, project: Option<real>): Option<real> {
    if user.None? then project
    else if project.None? then user
    else Some(if user.value <= project.value then user.value else project.value)
  }

  function MergedCommands(user: seq<string>, project: seq<string>): seq<string> {
    var common := SortedCommon(user, project);
    if common == [] then SortedSet(user) else common
  }

  function MergedAllowlist(user: seq<string>, project: seq<string>): seq<string> {
    if user != [] && project != [] then SortedCommon(user, project)
    else if user != [] then user
    else project
  }

  function MergedApproval(user: ApprovalConfig, project: ApprovalConfig): ApprovalConfig {
    ApprovalConfig(
      StricterApprovalMode(user.mode, project.mode),
      MinInt(user.autoMaxFiles, project.autoMaxFiles),
      MinInt(user.autoMaxChangedLines, project.autoMaxChangedLines),
      SortedUnion(user.neverAutoPaths, project.neverAutoPaths))
  }

  function MergedShell(user: ShellPolicy, project: ShellPolicy): ShellPolicy {
    ShellPolicy(
      MinInt(user.defaultTimeoutSeconds, project.defaultTimeoutSeconds),
      user.allowReadonlyWithoutConfirm && project.allowReadonlyWithoutConfirm,
      user.requireConfirmForMedium || project.requireConfirmForMedium,
      user.blockHighRisk || project.blockHighRisk,
      MergedCommands(user.allowedCommands, project.allowedCommands))
  }

  function MergedSandbox(user: SandboxPolicy, project: SandboxPolicy): SandboxPolicy {
    SandboxPolicy(
      user.restrictToProjectRoot || project.restrictToProjectRoot,
      user.networkEnabled && project.networkEnabled,
      MergedAllowlist(user.networkAllowlist, project.networkAllowlist),
      SortedUnion(user.sensitiveNames, project.sensitiveNames))
  }

  /** Hook commands come from the project; permission to run them at medium risk needs both. */
  function MergedHooks(user: HookConfig, project: HookConfig): HookConfig {
    project.(allowMediumAfterApply := user.allowMediumAfterApply && project.allowMediumAfterApply)
  }

  function MergedCost(user: CostConfig, project: CostConfig): CostConfig {
    CostConfig(
      LowerCap(user.maxTokensPerSession, project.maxTokensPerSession),
      LowerUsd(user.fallbackOnUsd, project.fallbackOnUsd))
  }

  function MergedFormatter(user: FormatterConfig, project: FormatterConfig): FormatterConfig {
    FormatterConfig(
      user.enabled && project.enabled,
      if project.commands != [] then project.commands else user.commands)
  }

  function Merged(user: Settings, project: Settings): Settings {
    Settings(
      if project.sacDir != "" then project.sacDir else user.sacDir,
      MinInt(user.maxTreeFiles, project.maxTreeFiles),
      MinInt(user.maxFileLines, project.maxFileLines),
      MinInt(user.maxFileBytes, project.maxFileBytes),
      MinInt(user.maxContextChars, project.maxContextChars),
      StricterPolicy(user.policy, project.policy),
      user.contextGitPerFile,
      MergedShell(user.shell, project.shell),
      MergedSandbox(user.sandbox, project.sandbox),
      MergedHooks(user.hooks, project.hooks),
      user.llm,
      user.trustRoots,
      MergedCost(user.cost, project.cost),
      MergedApproval(user.approval, project.approval),
      MergedFormatter(user.formatter, project.formatter))
  }

  // ------------------------------------------------------------------
  // The strictness order
  // ------------------------------------------------------------------

  predicate CapAtMost(cap: Option<int>, bound: Option<int>) {
    bound.None? || (cap.Some? && cap.value <= bound.value)
  }

  predicate UsdAtMost(cap: Option<real>, bound: Option<real>) {
    bound.None? || (cap.Some? && cap.value <= bound.value)
  }

  /** The allowlist readers treat an empty list as "no restriction". */
  predicate Permits(sandbox: SandboxPolicy, host: string) {
    sandbox.networkAllowlist == [] || host in sandbox.networkAllowlist
  }

  predicate Reaches(sandbox: SandboxPolicy, host: string) {
    sandbox.networkEnabled && Permits(sandbox, host)
  }

  predicate ApprovalNotLaxer(a: ApprovalConfig, base: ApprovalConfig) {
    && ApprovalModeOrder(a.mode) >= ApprovalModeOrder(base.mode)
    && a.autoMaxFiles <= base.autoMaxFiles
    && a.autoMaxChangedLines <= base.autoMaxChangedLines
    && Elems(base.neverAutoPaths) <= Elems(a.neverAutoPaths)
  }

  /** The six knobs a policy preset overwrites, apart from the network ones. */
  predicate KnobsNotLaxer(c: Settings, base: Settings) {
    && (c.shell.allowReadonlyWithoutConfirm ==> base.shell.allowReadonlyWithoutConfirm)
    && (base.shell.requireConfirmForMedium ==> c.shell.requireConfirmForMedium)
    && (base.shell.blockHighRisk ==> c.shell.blockHighRisk)
    && Elems(c.shell.allowedCommands) <= Elems(base.shell.allowedCommands)
    && (base.sandbox.restrictToProjectRoot ==> c.sandbox.restrictToProjectRoot)
    && (c.hooks.allowMediumAfterApply ==> base.hooks.allowMediumAfterApply)
  }

  /** Everything but the preset knobs and the hosts. */
  predicate LimitsNotLaxer(c: Settings, base: Settings) {
    && c.maxTreeFiles <= base.maxTreeFiles
    && c.maxFileLines <= base.maxFileLines
    && c.maxFileBytes <= base.maxFileBytes
    && c.maxContextChars <= base.maxContextChars
    && Rank(c.policy) >= Rank(base.policy)
    && c.shell.defaultTimeoutSeconds <= base.shell.defaultTimeoutSeconds
    && Elems(base.sandbox.sensitiveNames) <= Elems(c.sandbox.sensitiveNames)
    && CapAtMost(c.cost.maxTokensPerSession, base.cost.maxTokensPerSession)
    && UsdAtMost(c.cost.fallbackOnUsd, base.cost.fallbackOnUsd)
    && ApprovalNotLaxer(c.approval, base.approval)
    && (c.formatter.enabled ==> base.formatter.enabled)
    && (c.sandbox.networkEnabled ==> base.sandbox.networkEnabled)
  }

  ghost predicate HostsWithin(c: Settings, base: Settings) {
    forall host :: Permits(c.sandbox, host) ==> Permits(base.sandbox, host)
  }

  /** Both files restrict the hosts and name no host in common. */
  predicate AllowlistsClash(user: Settings, project: Settings) {
    && user.sandbox.networkAllowlist != []
    && project.sandbox.networkAllowlist != []
    && Disjoint(user.sandbox.networkAllowlist, project.sandbox.networkAllowlist)
  }

  /** The project can tighten every knob and loosen none. */
  lemma MergeNeverLaxerThanUser(user: Settings, project: Settings)
    ensures LimitsNotLaxer(Merged(user, project), user)
    ensures KnobsNotLaxer(Merged(user, project), user)
    ensures Merged(user, project).llm == user.llm
    ensures Merged(user, project).trustRoots == user.trustRoots
  {
    StricterPolicyRank(user.policy, project.policy);
  }

  /** The merge also honours every tightening the project asks for, except a command list that shares
      nothing with the user's, and an unknown policy name, which is ranked as balanced but ignored, when
      the user's own policy is below that. */
  lemma MergeHonoursProject(user: Settings, project: Settings)
    ensures LimitsNotLaxer(Merged(user, project), project) <==>
            IsKnownPolicy(project.policy) || Rank(user.policy) >= 1
    ensures KnobsNotLaxer(Merged(user, project), project) <==>
            user.shell.allowedCommands == [] ||
            !Disjoint(user.shell.allowedCommands, project.shell.allowedCommands)
  {
    StricterPolicyRank(user.policy, project.policy);
    MergedCommandsAsSet(user.shell.allowedCommands, project.shell.allowedCommands);
    ElemsEmpty(user.shell.allowedCommands);
  }

  /** The common commands when there are any, otherwise all of the user's. */
  lemma MergedCommandsAsSet(user: seq<string>, project: seq<string>)
    ensures Elems(MergedCommands(user, project)) ==
            if Disjoint(user, project) then Elems(user) else Elems(user) * Elems(project)
  {
    ElemsEmpty(SortedCommon(user, project));
  }

  /** Nothing stricter than necessary: any settings at least as strict as both files are at
      least as strict as the merge. */
  lemma MergeIsLoosestCommonTightening(user: Settings, project: Settings, c: Settings)
    requires LimitsNotLaxer(c, user) && LimitsNotLaxer(c, project)
    requires KnobsNotLaxer(c, user) && KnobsNotLaxer(c, project)
    requires HostsWithin(c, user) && HostsWithin(c, project)
    ensures LimitsNotLaxer(c, Merged(user, project))
    ensures KnobsNotLaxer(c, Merged(user, project))
    ensures HostsWithin(c, Merged(user, project))
  {
    StricterPolicyRank(user.policy, project.policy);
    MergedHosts(user, project);
    assert forall x :: x in Elems(c.shell.allowedCommands) ==>
      x in Elems(user.shell.allowedCommands) * Elems(project.shell.allowedCommands);
    forall host | Permits(c.sandbox, host) ensures Permits(Merged(user, project).sandbox, host) {
      assert Permits(user.sandbox, host) && Permits(project.sandbox, host);
      assert host in user.sandbox.networkAllowlist && host in project.sandbox.networkAllowlist ==>
        host in Elems(user.sandbox.networkAllowlist) * Elems(project.sandbox.networkAllowlist);
    }
  }

  /** The hosts the merge lets through, clash or not. */
  lemma MergedHosts(user: Settings, project: Settings)
    ensures forall host :: Permits(Merged(user, project).sandbox, host) <==>
              AllowlistsClash(user, project) ||
              (Permits(user.sandbox, host) && Permits(project.sandbox, host))
  {
    var u, p := user.sandbox.networkAllowlist, project.sandbox.networkAllowlist;
    var common := SortedCommon(u, p);
    ElemsEmpty(common);
    forall host ensures host in common <==> host in u && host in p {
      assert host in Elems(common) <==> host in Elems(u) * Elems(p);
    }
  }

  /** The merged host restriction is exactly the conjunction of the two, unless the lists clash:
      then it is empty, which readers take as unrestricted. */
  lemma MergedHostsExactIffNoClash(user: Settings, project: Settings)
    ensures (forall host :: Permits(Merged(user, project).sandbox, host) <==>
                            Permits(user.sandbox, host) && Permits(project.sandbox, host))
            <==> !AllowlistsClash(user, project)
    ensures HostsWithin(Merged(user, project), user) <==> !AllowlistsClash(user, project)
  {
    MergedHosts(user, project);
    if AllowlistsClash(user, project) {
      var host := project.sandbox.networkAllowlist[0];
      assert host in Elems(project.sandbox.networkAllowlist);
      assert host in user.sandbox.networkAllowlist ==>
        host in Elems(user.sandbox.networkAllowlist) * Elems(project.sandbox.networkAllowlist);
      assert !Permits(user.sandbox, host) && Permits(Merged(user, project).sandbox, host);
    }
  }

  /** A clash on an enabled network opens every host, although each file named a single one. */
  lemma ClashOpensTheNetwork() returns (user: Settings, project: Settings)
    ensures user.sandbox.networkAllowlist == ["a.example"]
    ensures project.sandbox.networkAllowlist == ["b.example"]
    ensures forall host :: Reaches(Merged(user, project).sandbox, host)
  {
    var open := DEFAULTS.sandbox.(networkEnabled := true);
    user := DEFAULTS.(sandbox := open.(networkAllowlist := ["a.example"]));
    project := DEFAULTS.(sandbox := open.(networkAllowlist := ["b.example"]));
    assert "a.example"[0] != "b.example"[0];
    assert AllowlistsClash(user, project);
    MergedHosts(user, project);
  }

  /** Equality of settings with the network allowlist read as a set. */
  predicate SameAsSets(a: Settings, b: Settings) {
    && Elems(a.sandbox.networkAllowlist) == Elems(b.sandbox.networkAllowlist)
    && a == b.(sandbox := b.sandbox.(networkAllowlist := a.sandbox.networkAllowlist))
  }

  /** Merging the same project file a second time changes nothing, exactly when the lists do not clash. */
  lemma MergeIdempotentIffNoClash(user: Settings, project: Settings)
    ensures SameAsSets(Merged(Merged(user, project), project), Merged(user, project))
            <==> !AllowlistsClash(user, project)
  {
    var once := Merged(user, project);
    var twice := Merged(once, project);
    SectionsIdempotent(user, project);
    SandboxIdempotent(user.sandbox, project.sandbox);
    var m := twice.sandbox.networkAllowlist;
    assert twice.sandbox == once.sandbox.(networkAllowlist := m);
  }

  lemma SectionsIdempotent(user: Settings, project: Settings)
    ensures var once := Merged(user, project);
            var twice := Merged(once, project);
            twice == once.(sandbox := twice.sandbox)
  {
    var once := Merged(user, project);
    ShellIdempotent(user.shell, project.shell);
    ApprovalIdempotent(user.approval, project.approval);
    PlainSectionsIdempotent(user, project);
  }

  lemma ShellIdempotent(user: ShellPolicy, project: ShellPolicy)
    ensures MergedShell(MergedShell(user, project), project) == MergedShell(user, project)
  {
    CommandsIdempotent(user.allowedCommands, project.allowedCommands);
  }

  lemma ApprovalIdempotent(user: ApprovalConfig, project: ApprovalConfig)
    ensures MergedApproval(MergedApproval(user, project), project) == MergedApproval(user, project)
  {
    UnionIdempotent(user.neverAutoPaths, project.neverAutoPaths);
  }

  lemma PlainSectionsIdempotent(user: Settings, project: Settings)
    ensures StricterPolicy(StricterPolicy(user.policy, project.policy), project.policy) ==
            StricterPolicy(user.policy, project.policy)
    ensures MergedHooks(MergedHooks(user.hooks, project.hooks), project.hooks) ==
            MergedHooks(user.hooks, project.hooks)
    ensures MergedCost(MergedCost(user.cost, project.cost), project.cost) ==
            MergedCost(user.cost, project.cost)
    ensures MergedFormatter(MergedFormatter(user.formatter, project.formatter), project.formatter) ==
            MergedFormatter(user.formatter, project.formatter)
  {
  }

  lemma SandboxIdempotent(user: SandboxPolicy, project: SandboxPolicy)
    ensures var once := MergedSandbox(user, project);
            var twice := MergedSandbox(once, project);
            && twice == once.(networkAllowlist := twice.networkAllowlist)
            && (Elems(twice.networkAllowlist) == Elems(once.networkAllowlist) <==>
                !(user.networkAllowlist != [] && project.networkAllowlist != [] &&
                  Disjoint(user.networkAllowlist, project.networkAllowlist)))
  {
    AllowlistIdempotent(user.networkAllowlist, project.networkAllowlist);
    UnionIdempotent(user.sensitiveNames, project.sensitiveNames);
  }

  lemma AllowlistIdempotent(user: seq<string>, project: seq<string>)
    ensures Elems(MergedAllowlist(MergedAllowlist(user, project), project)) == Elems(MergedAllowlist(user, project))
            <==> !(user != [] && project != [] && Disjoint(user, project))
  {
    var once := MergedAllowlist(user, project);
    ElemsEmpty(once);
    ElemsEmpty(user);
    ElemsEmpty(project);
    if user != [] && project != [] {
      assert Elems(once) * Elems(project) == Elems(once);
    }
  }

  lemma CommandsIdempotent(user: seq<string>, project: seq<string>)
    ensures MergedCommands(MergedCommands(user, project), project) == MergedCommands(user, project)
  {
    var once := MergedCommands(user, project);
    ElemsEmpty(SortedCommon(user, project));
    ElemsEmpty(SortedCommon(once, project));
    if SortedCommon(user, project) == [] {
      SortedSetCanonical(once, user);
    } else {
      assert Elems(Common(once, project)) == Elems(Common(user, project));
      SortedSetCanonical(Common(once, project), Common(user, project));
    }
  }

  lemma UnionIdempotent(user: seq<string>, project: seq<string>)
    ensures SortedUnion(SortedUnion(user, project), project) == SortedUnion(user, project)
  {
    ElemsConcat(user, project);
    ElemsConcat(SortedUnion(user, project), project);
    assert Elems(SortedUnion(user, project) + project) == Elems(user + project);
    SortedSetCanonical(SortedUnion(user, project) + project, user + project);
  }

  // ------------------------------------------------------------------
  // Presets and the layered load
  // ------------------------------------------------------------------

  datatype Preset = Preset(
    allowReadonlyWithoutConfirm: bool,
    requireConfirmForMedium: bool,
    allowedCommands: seq<string>,
    allowMediumAfterApply: bool)

  /** Every preset blocks high-risk commands, confines to the project root and turns the network off. */
  function PresetFor(canonical: PolicyName): Option<Preset> {
    match canonical
    case Strict => Some(Preset(false, true, ["git", "ls", "pwd"], false))
    case Balanced => Some(Preset(true, true, ["echo", "git", "ls", "pwd"], false))
    case Experimental =>
      Some(Preset(true, false, ["cat", "echo", "find", "git", "grep", "ls", "pwd"], true))
    case _ => None
  }

  function WithPreset(s: Settings): Settings {
    match PresetFor(NormalizePolicyName(s.policy))
    case None => s
    case Some(p) =>
      s.(shell := ShellPolicy(
           s.shell.defaultTimeoutSeconds, p.allowReadonlyWithoutConfirm, p.requireConfirmForMedium,
           true, p.allowedCommands),
         sandbox := SandboxPolicy(true, false, [], s.sandbox.sensitiveNames),
         hooks := s.hooks.(allowMediumAfterApply := p.allowMediumAfterApply))
  }

  /** The active entry of the user file's provider table; an empty field is absent. */
  datatype ProviderProfile = ProviderProfile(name: string, baseUrl: string, model: string, apiKey: string)

  /** Everything the load reads: the two parsed files, whether each names a policy, the active
      provider profile of the user file, and three environment variables (absent or empty when unset). */
  datatype LoadInput = LoadInput(
    user: Settings,
    userNamesPolicy: bool,
    project: Settings,
    projectNamesPolicy: bool,
    profile: Option<ProviderProfile>,
    envPolicy: Option<PolicyName>,
    envProvider: string,
    envModel: string)
  {
    predicate PresetSelected() {
      userNamesPolicy || projectNamesPolicy || EnvironmentNamesPolicy()
    }

    predicate EnvironmentNamesPolicy() {
      envPolicy.Some? && IsKnownPolicy(envPolicy.value)
    }

    function EffectivePolicy(): PolicyName {
      var merged := StricterPolicy(user.policy, project.policy);
      if EnvironmentNamesPolicy() then StricterPolicy(merged, envPolicy.value) else merged
    }
  }

  function WithProfile(llm: LlmConfig, profile: Option<ProviderProfile>): LlmConfig {
    match profile
    case None => llm
    case Some(p) => LlmConfig(
      p.name,
      if p.model != "" then p.model else llm.model,
      if p.baseUrl != "" then p.baseUrl else llm.baseUrl,
      if p.apiKey != "" then Some(p.apiKey) else llm.apiKey)
  }

  function SelectedLlm(
    llm: LlmConfig, profile: Option<ProviderProfile>, envProvider: string, envModel: string): LlmConfig
  {
    var selected := WithProfile(llm, profile);
    selected.(
      provider := if envProvider != "" then envProvider else selected.provider,
      model := if envModel != "" then envModel else selected.model)
  }

  function PresetKeepingNetwork(s: Settings): Settings {
    var p := WithPreset(s);
    p.(sandbox := p.sandbox.(
      networkEnabled := p.sandbox.networkEnabled || s.sandbox.networkEnabled,
      networkAllowlist :=
        if s.sandbox.networkAllowlist != [] then s.sandbox.networkAllowlist else p.sandbox.networkAllowlist))
  }

  function Loaded(i: LoadInput): Settings {
    var named := Merged(i.user, i.project).(policy := i.EffectivePolicy());
    var preset := if i.PresetSelected() then PresetKeepingNetwork(named) else named;
    preset.(llm := SelectedLlm(preset.llm, i.profile, i.envProvider, i.envModel))
  }

  /** No preset changes what the two files agreed about the network, and the policy only rises. */
  lemma LoadKeepsNetworkAndPolicyFloor(i: LoadInput)
    ensures Loaded(i).sandbox.networkEnabled == Merged(i.user, i.project).sandbox.networkEnabled
    ensures Loaded(i).sandbox.networkAllowlist == Merged(i.user, i.project).sandbox.networkAllowlist
    ensures Rank(Loaded(i).policy) >= Rank(i.user.policy)
    ensures i.EnvironmentNamesPolicy() ==> Rank(Loaded(i).policy) >= Rank(i.envPolicy.value)
    ensures IsKnownPolicy(i.project.policy) ==> Rank(Loaded(i).policy) >= Rank(i.project.policy)
  {
    StricterPolicyRank(i.user.policy, i.project.policy);
  }

  /** Non-interference: what a project file says about providers and trust has no effect. */
  lemma LoadIgnoresProjectLlmAndTrust(i: LoadInput, llm: LlmConfig, roots: seq<TrustRoot>)
    ensures Loaded(i.(project := i.project.(llm := llm, trustRoots := roots))) == Loaded(i)
    ensures Loaded(i).trustRoots == i.user.trustRoots
  {
    var other := i.(project := i.project.(llm := llm, trustRoots := roots));
    assert Merged(other.user, other.project) == Merged(i.user, i.project);
    assert other.EffectivePolicy() == i.EffectivePolicy();
  }

  /** The environment wins over the active profile, which wins over the user's provider table. */
  lemma LoadProviderPrecedence(i: LoadInput)
    ensures i.envProvider != "" ==> Loaded(i).llm.provider == i.envProvider
    ensures i.envProvider == "" && i.profile.Some? ==> Loaded(i).llm.provider == i.profile.value.name
    ensures i.envProvider == "" && i.envModel == "" && i.profile.None? ==> Loaded(i).llm == i.user.llm
    ensures i.profile.None? ==> Loaded(i).llm.apiKey == i.user.llm.apiKey
  {
  }

  /** The preset of the effective policy is at least as strict as what the user wrote. */
  predicate PresetNotLaxer(preset: Preset, user: Settings) {
    && (preset.allowReadonlyWithoutConfirm ==> user.shell.allowReadonlyWithoutConfirm)
    && (user.shell.requireConfirmForMedium ==> preset.requireConfirmForMedium)
    && Elems(preset.allowedCommands) <= Elems(user.shell.allowedCommands)
    && (preset.allowMediumAfterApply ==> user.hooks.allowMediumAfterApply)
  }

  /** Unlike the merge, the load can end laxer than the user file: exactly when a preset is
      selected and that preset is laxer than the knobs the user wrote. */
  lemma LoadKeepsUserKnobsIff(i: LoadInput)
    ensures KnobsNotLaxer(Loaded(i), i.user) <==>
            (i.PresetSelected() && PresetFor(NormalizePolicyName(i.EffectivePolicy())).Some? ==>
             PresetNotLaxer(PresetFor(NormalizePolicyName(i.EffectivePolicy())).value, i.user))
  {
    MergeNeverLaxerThanUser(i.user, i.project);
  }

  /** The limits, caps, approval settings and the network switch survive every layer. */
  lemma LoadKeepsUserLimits(i: LoadInput)
    ensures LimitsNotLaxer(Loaded(i), i.user)
  {
    MergeNeverLaxerThanUser(i.user, i.project);
    LoadKeepsNetworkAndPolicyFloor(i);
  }

  /** When no source names a policy, a project line that only spells out the policy already in
      force turns the preset on, and so undoes a stricter knob of the user file. */
  lemma ProjectPolicyLineLowersUserKnob(i: LoadInput)
    requires !i.PresetSelected()
    requires i.EffectivePolicy() == Balanced
    requires !i.user.shell.allowReadonlyWithoutConfirm
    ensures Loaded(i.(projectNamesPolicy := true)).policy == Loaded(i).policy
    ensures Loaded(i.(projectNamesPolicy := true)).shell.allowReadonlyWithoutConfirm
    ensures !Loaded(i).shell.allowReadonlyWithoutConfirm
  {
    var named := Merged(i.user, i.project).(policy := i.EffectivePolicy());
    assert WithPreset(named).shell.allowReadonlyWithoutConfirm;
    assert i.(projectNamesPolicy := true).EffectivePolicy() == Balanced;
  }

  // ------------------------------------------------------------------
  // What a selected policy permits
  // ------------------------------------------------------------------

  /** The policy in force is strict exactly when some source asks for it; naming it in the environment counts as
      much as in a file. */
  lemma StrictIffAskedFor(i: LoadInput)
    ensures i.EffectivePolicy() == Strict <==>
            i.user.policy == Strict || i.project.policy == Strict || i.envPolicy == Some(Strict)
    ensures Loaded(i).policy == i.EffectivePolicy()
  {
  }

  predicate KnobsAre(c: Settings, confirmReadonly: bool, confirmMedium: bool, commands: seq<string>, mediumHooks: bool) {
    && c.shell.blockHighRisk && c.sandbox.restrictToProjectRoot
    && c.shell.allowReadonlyWithoutConfirm == !confirmReadonly
    && c.shell.requireConfirmForMedium == confirmMedium
    && Elems(c.shell.allowedCommands) == Elems(commands)
    && c.hooks.allowMediumAfterApply == mediumHooks
  }

  /** The knobs of a load with a preset are that preset's, and nothing in the files matters to them. */
  lemma KnobsOfPreset(i: LoadInput, p: Preset)
    requires i.PresetSelected() && PresetFor(NormalizePolicyName(i.EffectivePolicy())) == Some(p)
    ensures KnobsAre(Loaded(i), !p.allowReadonlyWithoutConfirm, p.requireConfirmForMedium, p.allowedCommands,
                     p.allowMediumAfterApply)
  {
  }

  /** What a load under a strict policy permits, whatever the two files say about these knobs. */
  lemma StrictLoad(i: LoadInput)
    requires i.PresetSelected() && i.EffectivePolicy() == Strict
    ensures KnobsAre(Loaded(i), true, true, ["git", "ls", "pwd"], false)
  {
    KnobsOfPreset(i, PresetFor(Strict).value);
  }

  lemma BalancedLoad(i: LoadInput)
    requires i.PresetSelected() && i.EffectivePolicy() in {Balanced, Normal}
    ensures KnobsAre(Loaded(i), false, true, ["echo", "git", "ls", "pwd"], false)
  {
    KnobsOfPreset(i, PresetFor(Balanced).value);
  }

  lemma ExperimentalLoad(i: LoadInput)
    requires i.PresetSelected() && i.EffectivePolicy() in {Experimental, Learning}
    ensures KnobsAre(Loaded(i), false, false, ["cat", "echo", "find", "git", "grep", "ls", "pwd"], true)
  {
    KnobsOfPreset(i, PresetFor(Experimental).value);
  }

  /** An unknown policy name in force leaves what the two files agreed on. */
  lemma UnknownPolicyLoad(i: LoadInput)
    requires i.EffectivePolicy().Other?
    ensures Loaded(i).shell == Merged(i.user, i.project).shell
    ensures Loaded(i).hooks == Merged(i.user, i.project).hooks
    ensures Loaded(i).sandbox == Merged(i.user, i.project).sandbox
  {
  }

  /** Presets are ordered as their policies are, strictly: of two loads with a preset, one is at least as strict
      as the other in these knobs exactly when its policy ranks at least as high, whatever the files say. */
  lemma PresetsFollowRank(i: LoadInput, j: LoadInput)
    requires i.PresetSelected() && IsKnownPolicy(i.EffectivePolicy())
    requires j.PresetSelected() && IsKnownPolicy(j.EffectivePolicy())
    ensures KnobsNotLaxer(Loaded(i), Loaded(j)) <==> Rank(i.EffectivePolicy()) >= Rank(j.EffectivePolicy())
  {
    KnobsByRank(i);
    KnobsByRank(j);
    CommandNamesDiffer();
  }

  function CommandsByRank(rank: int): seq<string> {
    if rank == 2 then ["git", "ls", "pwd"]
    else if rank == 1 then ["echo", "git", "ls", "pwd"]
    else ["cat", "echo", "find", "git", "grep", "ls", "pwd"]
  }

  lemma KnobsByRank(i: LoadInput)
    requires i.PresetSelected() && IsKnownPolicy(i.EffectivePolicy())
    ensures var rank := Rank(i.EffectivePolicy());
            0 <= rank <= 2 && KnobsAre(Loaded(i), rank == 2, rank >= 1, CommandsByRank(rank), rank == 0)
  {
    match i.EffectivePolicy()
    case Strict => StrictLoad(i);
    case Balanced | Normal => BalancedLoad(i);
    case Experimental | Learning => ExperimentalLoad(i);
  }

  /** The commands a laxer policy adds are new ones. */
  lemma CommandNamesDiffer()
    ensures Elems(CommandsByRank(2)) < Elems(CommandsByRank(1)) < Elems(CommandsByRank(0))
  {
    var strict, balanced, loose := CommandsByRank(2), CommandsByRank(1), CommandsByRank(0);
    assert balanced == ["echo"] + strict;
    ElemsCons("echo", strict);
    assert balanced[0][0] == 'e' && balanced[0] !in strict;
    assert loose[1] == balanced[0] && loose[3] == balanced[1] && loose[5] == balanced[2] && loose[6] == balanced[3];
    assert forall x :: x in balanced ==> x in loose;
    assert loose[0][0] == 'c' && loose[0] !in balanced;
    assert loose[0] in Elems(loose) && loose[0] !in Elems(balanced);
  }

  /** Settings nobody wrote are already those of the balanced policy, and its preset changes nothing in them. */
  lemma DefaultsAreBalanced()
    ensures DEFAULTS.policy == Balanced
    ensures KnobsNotLaxer(DEFAULTS, WithPreset(DEFAULTS)) && KnobsNotLaxer(WithPreset(DEFAULTS), DEFAULTS)
    ensures WithPreset(DEFAULTS).sandbox == DEFAULTS.sandbox
  {
  }

  // ------------------------------------------------------------------
  // Who decides about the rest
  // ------------------------------------------------------------------

  /** On a tie the user's own spelling is kept, for the policy and for the approval mode. */
  lemma TiesKeepTheUsersWord(user: Settings, project: Settings)
    ensures Rank(user.policy) >= Rank(project.policy) ==> Merged(user, project).policy == user.policy
    ensures ApprovalModeOrder(user.approval.mode) >= ApprovalModeOrder(project.approval.mode) ==>
              Merged(user, project).approval.mode == user.approval.mode
    ensures Merged(user, project).approval.mode in {user.approval.mode, project.approval.mode}
  {
  }

  predicate AsksEveryTime(mode: ApprovalMode) {
    mode == Suggest || mode.OtherMode?
  }

  /** The merged approval mode is the more careful one: full-auto needs both files, automatic edits need both to
      allow at least that, and a mode nobody knows counts as asking every time. */
  lemma MergedModeIff(user: Settings, project: Settings)
    ensures var u, p, m := user.approval.mode, project.approval.mode, Merged(user, project).approval.mode;
            && (m == FullAuto <==> u == p == FullAuto)
            && (m == AutoEdit <==> (u == AutoEdit && p in {AutoEdit, FullAuto}) || (u == FullAuto && p == AutoEdit))
            && (AsksEveryTime(m) <==> AsksEveryTime(u) || AsksEveryTime(p))
            && (AsksEveryTime(u) ==> m == u)
  {
  }

  /** The commands run as hooks are the project's, each list in its own place, and the user's have no effect; so
      is the directory, unless it is empty. The per-file history switch is the user's. */
  lemma ProjectDecidesHooks(user: Settings, project: Settings, hooks: HookConfig)
    ensures Merged(user, project).hooks.(allowMediumAfterApply := project.hooks.allowMediumAfterApply) == project.hooks
    ensures hooks.allowMediumAfterApply == user.hooks.allowMediumAfterApply ==>
              Merged(user.(hooks := hooks), project) == Merged(user, project)
    ensures Merged(user, project).sacDir == "" <==> user.sacDir == project.sacDir == ""
    ensures project.sacDir != "" ==> Merged(user, project).sacDir == project.sacDir
    ensures project.sacDir == "" ==> Merged(user, project).sacDir == user.sacDir
    ensures Merged(user, project).contextGitPerFile == user.contextGitPerFile
  {
    if hooks.allowMediumAfterApply == user.hooks.allowMediumAfterApply {
      assert Merged(user.(hooks := hooks), project).hooks == Merged(user, project).hooks;
    }
  }

  /** The formatter runs only if both files enable it, with the project's commands if it lists any. */
  lemma ProjectDecidesFormatter(user: Settings, project: Settings)
    ensures Merged(user, project).formatter.enabled <==> user.formatter.enabled && project.formatter.enabled
    ensures project.formatter.commands != [] ==>
              Merged(user, project).formatter.commands == project.formatter.commands
    ensures project.formatter.commands == [] ==> Merged(user, project).formatter.commands == user.formatter.commands
  {
  }

  /** Each provider setting comes from the first source that has it: the environment, the active profile, the
      user's own table. Only the name and the model have a place in the environment. */
  lemma LoadProviderFields(i: LoadInput)
    ensures var llm := Loaded(i).llm;
            var named := i.profile.Some?;
            && (i.envModel != "" ==> llm.model == i.envModel)
            && (i.envModel == "" && named && i.profile.value.model != "" ==> llm.model == i.profile.value.model)
            && (i.envModel == "" && (!named || i.profile.value.model == "") ==> llm.model == i.user.llm.model)
            && (named && i.profile.value.baseUrl != "" ==> llm.baseUrl == i.profile.value.baseUrl)
            && (!named || i.profile.value.baseUrl == "" ==> llm.baseUrl == i.user.llm.baseUrl)
            && (named && i.profile.value.apiKey != "" ==> llm.apiKey == Some(i.profile.value.apiKey))
            && (!named || i.profile.value.apiKey == "" ==> llm.apiKey == i.user.llm.apiKey)
  {
  }

  // ------------------------------------------------------------------
  // The mutable settings object
  // ------------------------------------------------------------------

  class SafeCodeConfig {
    var sacDir: string
    var maxTreeFiles: int
    var maxFileLines: int
    var maxFileBytes: int
    var maxContextChars: int
    var policy: PolicyName
    var contextGitPerFile: bool
    var shell: ShellPolicy
    var sandbox: SandboxPolicy
    var hooks: HookConfig
    var llm: LlmConfig
    var trustRoots: seq<TrustRoot>
    var cost: CostConfig
    var approval: ApprovalConfig
    var formatter: FormatterConfig

    function Value(): Settings
      reads this
    {
      Settings(sacDir, maxTreeFiles, maxFileLines, maxFileBytes, maxContextChars, policy,
               contextGitPerFile, shell, sandbox, hooks, llm, trustRoots, cost, approval, formatter)
    }

    constructor (s: Settings)
      ensures Value() == s
    {
      sacDir, policy, contextGitPerFile := s.sacDir, s.policy, s.contextGitPerFile;
      maxTreeFiles, maxFileLines := s.maxTreeFiles, s.maxFileLines;
      maxFileBytes, maxContextChars := s.maxFileBytes, s.maxContextChars;
      shell, sandbox, hooks, llm := s.shell, s.sandbox, s.hooks, s.llm;
      trustRoots, cost, approval, formatter := s.trustRoots, s.cost, s.approval, s.formatter;
    }

    /** Overwrites the knobs of the preset named by `policy`; an unknown name changes nothing. */
    method ApplyPolicyPreset()
      modifies this
      ensures Value() == WithPreset(old(Value()))
    {
      var preset := PresetFor(NormalizePolicyName(policy));
      if preset.None? {
        return;
      }
      var p := preset.value;
      shell := shell.(allowReadonlyWithoutConfirm := p.allowReadonlyWithoutConfirm);
      shell := shell.(requireConfirmForMedium := p.requireConfirmForMedium);
      shell := shell.(blockHighRisk := true);
      shell := shell.(allowedCommands := p.allowedCommands);
      sandbox := sandbox.(restrictToProjectRoot := true);
      sandbox := sandbox.(networkEnabled := false);
      sandbox := sandbox.(networkAllowlist := []);
      hooks := hooks.(allowMediumAfterApply := p.allowMediumAfterApply);
    }

    /** A new object; neither argument is touched. */
    static method MergeTrustedConfig(user: SafeCodeConfig, project: SafeCodeConfig)
      returns (merged: SafeCodeConfig)
      ensures fresh(merged)
      ensures merged.Value() == Merged(user.Value(), project.Value())
    {
      var u, p := user.Value(), project.Value();
      merged := new SafeCodeConfig(u);
      merged.TightenLimits(p);
      merged.MergeSections(p);
    }

    method TightenLimits(p: Settings)
      modifies this
      ensures Value() == var u := old(Value()); u.(
        sacDir := if p.sacDir != "" then p.sacDir else u.sacDir,
        maxTreeFiles := MinInt(u.maxTreeFiles, p.maxTreeFiles),
        maxFileLines := MinInt(u.maxFileLines, p.maxFileLines),
        maxFileBytes := MinInt(u.maxFileBytes, p.maxFileBytes),
        maxContextChars := MinInt(u.maxContextChars, p.maxContextChars),
        policy := StricterPolicy(u.policy, p.policy))
    {
      sacDir := if p.sacDir != "" then p.sacDir else sacDir;
      maxTreeFiles := MinInt(maxTreeFiles, p.maxTreeFiles);
      maxFileLines := MinInt(maxFileLines, p.maxFileLines);
      maxFileBytes := MinInt(maxFileBytes, p.maxFileBytes);
      maxContextChars := MinInt(maxContextChars, p.maxContextChars);
      policy := StricterPolicy(policy, p.policy);
    }

    /** Provider and trust tables are the user's alone and stay as they are. */
    method MergeSections(p: Settings)
      modifies this
      ensures Value() == var u := old(Value()); u.(
        shell := MergedShell(u.shell, p.shell),
        sandbox := MergedSandbox(u.sandbox, p.sandbox),
        hooks := MergedHooks(u.hooks, p.hooks),
        cost := MergedCost(u.cost, p.cost),
        approval := MergedApproval(u.approval, p.approval),
        formatter := MergedFormatter(u.formatter, p.formatter))
    {
      var mergedShell := MergeShell(shell, p.shell);
      var mergedSandbox := MergeSandbox(sandbox, p.sandbox);
      SetSections(mergedShell, mergedSandbox, MergedHooks(hooks, p.hooks), MergedCost(cost, p.cost),
                  MergedApproval(approval, p.approval), MergedFormatter(formatter, p.formatter));
    }

    method SetSections(s: ShellPolicy, n: SandboxPolicy, h: HookConfig, c: CostConfig, a: ApprovalConfig,
                       f: FormatterConfig)
      modifies this
      ensures Value() == old(Value()).(shell := s, sandbox := n, hooks := h, cost := c, approval := a,
                                       formatter := f)
    {
      shell, sandbox, hooks, cost, approval, formatter := s, n, h, c, a, f;
    }

    static method MergeShell(user: ShellPolicy, project: ShellPolicy) returns (merged: ShellPolicy)
      ensures merged == MergedShell(user, project)
    {
      var commands := SortedCommon(user.allowedCommands, project.allowedCommands);
      if commands == [] {
        commands := SortedSet(user.allowedCommands);
      }
      merged := ShellPolicy(
        MinInt(user.defaultTimeoutSeconds, project.defaultTimeoutSeconds),
        user.allowReadonlyWithoutConfirm && project.allowReadonlyWithoutConfirm,
        user.requireConfirmForMedium || project.requireConfirmForMedium,
        user.blockHighRisk || project.blockHighRisk,
        commands);
    }

    static method MergeSandbox(user: SandboxPolicy, project: SandboxPolicy) returns (merged: SandboxPolicy)
      ensures merged == MergedSandbox(user, project)
    {
      var hosts;
      if user.networkAllowlist != [] && project.networkAllowlist != [] {
        hosts := SortedCommon(user.networkAllowlist, project.networkAllowlist);
      } else if user.networkAllowlist != [] {
        hosts := user.networkAllowlist;
      } else {
        hosts := project.networkAllowlist;
      }
      merged := SandboxPolicy(
        user.restrictToProjectRoot || project.restrictToProjectRoot,
        user.networkEnabled && project.networkEnabled,
        hosts,
        SortedUnion(user.sensitiveNames, project.sensitiveNames));
    }

    static method Load(i: LoadInput) returns (config: SafeCodeConfig)
      ensures fresh(config)
      ensures config.Value() == Loaded(i)
    {
      var user := new SafeCodeConfig(i.user);
      var project := new SafeCodeConfig(i.project);
      config := MergeTrustedConfig(user, project);
      var applySelectedPreset := i.userNamesPolicy || i.projectNamesPolicy;
      if i.envPolicy.Some? && IsKnownPolicy(i.envPolicy.value) {
        config.policy := StricterPolicy(config.policy, i.envPolicy.value);
        applySelectedPreset := true;
      }
      if applySelectedPreset {
        config.ApplyPresetKeepingNetwork();
      }
      config.SelectProvider(i.profile, i.envProvider, i.envModel);
    }

    method ApplyPresetKeepingNetwork()
      modifies this
      ensures Value() == PresetKeepingNetwork(old(Value()))
    {
      var networkEnabled := sandbox.networkEnabled;
      var networkAllowlist := sandbox.networkAllowlist;
      ApplyPolicyPreset();
      if networkEnabled {
        sandbox := sandbox.(networkEnabled := true);
      }
      if networkAllowlist != [] {
        sandbox := sandbox.(networkAllowlist := networkAllowlist);
      }
    }

    method SelectProvider(profile: Option<ProviderProfile>, envProvider: string, envModel: string)
      modifies this
      ensures Value() == old(Value()).(llm := SelectedLlm(old(llm), profile, envProvider, envModel))
    {
      llm := WithProfile(llm, profile);
      if envProvider != "" {
        llm := llm.(provider := envProvider);
      }
      if envModel != "" {
        llm := llm.(model := envModel);
      }
    }
  }
}
