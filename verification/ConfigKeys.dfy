/** The registered configuration keys and where the file keeps each: packages/cli/src/config-store.ts:427-576
    (the keys), 691-787 (their paths), and 811-849 (the one class of keys that names a host). */
module ConfigKeys {
  import opened Options
  import opened ConfigTree

  /** The keys of each object that holds more than one. */
  datatype DaemonKey = DaemonPort | DaemonHost | DaemonDbConflict
  datatype HostKey = HostSelected | HostName
  datatype TranscriptsKey = TranscriptsEnabled | TranscriptsPath | TranscriptsLines
    | TranscriptsPollIntervalSeconds
  datatype WorkspaceKey = WorkspaceRoot | WorkspaceSlicesRoot | WorkspaceSteeringPath | WorkspaceSpecsRoot
    | WorkspaceProjectsRoot | WorkspaceCatalogPath | WorkspaceOperatorSeatName
  datatype ContextKey = ContextRoot | ContextSystemWorld
  datatype LaunchKey = LaunchNonInterruptive | LaunchCodexLoginShell
  datatype HealthContextPressureKey = HealthContextPressureWarningPercent | HealthContextPressureCriticalPercent
  datatype UiKey = UiTimezone | UiEnabled
  datatype UiPreviewKey = UiPreviewRefreshIntervalSeconds | UiPreviewMaxPins | UiPreviewDefaultLines
  datatype RecoveryKey = RecoveryAutoDriveProviderPrompts | RecoveryProviderAuthEnvAllowlist
  datatype AgentsKey = AgentsAdvisorSession | AgentsOperatorSession
  datatype FeedSubscriptionsKey = FeedSubscriptionsActionRequired | FeedSubscriptionsApprovals
    | FeedSubscriptionsShipped | FeedSubscriptionsProgress | FeedSubscriptionsAuditLog
  datatype PoliciesClaudeCompactionKey = PoliciesClaudeCompactionPreparationRoot
    | PoliciesClaudeCompactionEnabled | PoliciesClaudeCompactionThresholdPercent
    | PoliciesClaudeCompactionPreCompactInstruction | PoliciesClaudeCompactionCompactInstruction
    | PoliciesClaudeCompactionMessageInline | PoliciesClaudeCompactionMessageFilePath
    | PoliciesClaudeCompactionPostRestoreAuditInstruction
  datatype PoliciesIdleGateQitemKey = PoliciesIdleGateQitemScanIntervalSeconds
    | PoliciesIdleGateQitemActiveWakeIntervalSeconds | PoliciesIdleGateQitemAutoRegister
    | PoliciesIdleGateQitemOptInSessions
  datatype SnapshotsPeriodicKey = SnapshotsPeriodicEnabled | SnapshotsPeriodicIntervalSeconds
    | SnapshotsPeriodicRetentionKeep
  datatype TerminalKey = TerminalStatusBar | TerminalTmuxServer | TerminalHistoryLimit
    | TerminalInheritTmuxEnvironment
  datatype OutputKey = OutputCompact | OutputWhoamiPeers
  datatype ProviderKey = ProviderUsageWindows | ProviderSelected
  datatype UsageKey = UsagePiCostFacts | UsagePiOpenrouterCharge
  datatype TransportKey = TransportLocalUserGuard | TransportVerifyInputBox | TransportDraftDelivery
  datatype DecisionsKey = DecisionsEnabled | DecisionsConsumers | DecisionsTemplateDir
  datatype RetentionKey = RetentionEnabled | RetentionTransitionsDays | RetentionWatchdogDays
    | RetentionWatchdogKeepPerJob | RetentionStreamDays | RetentionStreamMaxItems | RetentionBatchSize
  datatype QueueKey = QueuePickupStallThresholdMinutes | QueueStuckSweepIntervalSeconds
    | QueueStuckSweepUnclaimedAgeMinutes | QueueWakeRetryIntervalSeconds | QueueWakeRetryCap
    | QueueWakeUnconfirmedWindowMinutes | QueueWakeSwapGraceSeconds | QueueWakeHumanRung

  /** The registered keys. */
  datatype Key =
    | OfDaemon(daemon: DaemonKey) | OfHost(host: HostKey) | WorkflowExceptionRouting | DbPath
    | OfTranscripts(transcripts: TranscriptsKey) | OfWorkspace(workspace: WorkspaceKey) | TopologyRoot
    | OfContext(context: ContextKey) | SpecsBuiltinsVisible | SkillsRoot | SkillsRouterLineEnabled
    | OnboardingDefaultPackEnabled | OfLaunch(launch: LaunchKey)
    | OfHealthContextPressure(healthContextPressure: HealthContextPressureKey) | FilesAllowlist
    | ProgressScanRoots | OfUi(ui: UiKey) | OfUiPreview(uiPreview: UiPreviewKey)
    | OfRecovery(recovery: RecoveryKey) | OfAgents(agents: AgentsKey)
    | OfFeedSubscriptions(feedSubscriptions: FeedSubscriptionsKey) | RuntimeReadinessTimeoutSeconds
    | RuntimeCodexHooksEnabled
    | OfPoliciesClaudeCompaction(policiesClaudeCompaction: PoliciesClaudeCompactionKey)
    | OfPoliciesIdleGateQitem(policiesIdleGateQitem: PoliciesIdleGateQitemKey)
    | OfSnapshotsPeriodic(snapshotsPeriodic: SnapshotsPeriodicKey) | OfTerminal(terminal: TerminalKey)
    | OfOutput(output: OutputKey) | OfProvider(provider: ProviderKey) | BundleServicesEnabled
    | OfUsage(usage: UsageKey) | OfTransport(transport: TransportKey) | OfDecisions(decisions: DecisionsKey)
    | OfRetention(retention: RetentionKey) | StreamIntake | OfQueue(queue: QueueKey)

  /** A key of the store: one of the registered ones, or `feed.subscriptions.<host>.enabled`. */
  datatype Address = Registered(key: Key) | PerHost(host: string)

  /** The objects of the file that hold keys or further objects. */
  datatype Section = Root | Top(top: Top) | Nested(nested: Nested)

  datatype Top = Daemon | Host | Workflow | Db | Transcripts | Workspace | Topology | Context | Specs | Skills
    | Onboarding | Launch | Health | Files | Progress | Ui | Recovery | Agents | Feed | Runtime | Policies
    | Snapshots | Terminal | Output | Provider | Bundle | Usage | Transport | Decisions | Retention | Stream
    | Queue

  datatype Nested = SkillsRouterLine | OnboardingDefaultPack | HealthContextPressure | UiPreview
    | FeedSubscriptions | RuntimeCodex | PoliciesClaudeCompaction | PoliciesIdleGateQitem | SnapshotsPeriodic

  function TopName(t: Top): string {
    match t
    case Daemon => "daemon"
    case Host => "host"
    case Workflow => "workflow"
    case Db => "db"
    case Transcripts => "transcripts"
    case Workspace => "workspace"
    case Topology => "topology"
    case Context => "context"
    case Specs => "specs"
    case Skills => "skills"
    case Onboarding => "onboarding"
    case Launch => "launch"
    case Health => "health"
    case Files => "files"
    case Progress => "progress"
    case Ui => "ui"
    case Recovery => "recovery"
    case Agents => "agents"
    case Feed => "feed"
    case Runtime => "runtime"
    case Policies => "policies"
    case Snapshots => "snapshots"
    case Terminal => "terminal"
    case Output => "output"
    case Provider => "provider"
    case Bundle => "bundle"
    case Usage => "usage"
    case Transport => "transport"
    case Decisions => "decisions"
    case Retention => "retention"
    case Stream => "stream"
    case Queue => "queue"
  }

  function NestedName(n: Nested): string {
    match n
    case SkillsRouterLine => "routerLine"
    case OnboardingDefaultPack => "defaultPack"
    case HealthContextPressure => "contextPressure"
    case UiPreview => "preview"
    case FeedSubscriptions => "subscriptions"
    case RuntimeCodex => "codex"
    case PoliciesClaudeCompaction => "claudeCompaction"
    case PoliciesIdleGateQitem => "idleGateQitem"
    case SnapshotsPeriodic => "periodic"
  }

  /** The object that a further one lies in. */
  function Above(n: Nested): Top {
    match n
    case SkillsRouterLine => Skills
    case OnboardingDefaultPack => Onboarding
    case HealthContextPressure => Health
    case UiPreview => Ui
    case FeedSubscriptions => Feed
    case RuntimeCodex => Runtime
    case PoliciesClaudeCompaction | PoliciesIdleGateQitem => Policies
    case SnapshotsPeriodic => Snapshots
  }

  function SectionPath(s: Section): Path {
    match s
    case Root => []
    case Top(t) => [TopName(t)]
    case Nested(n) => [TopName(Above(n)), NestedName(n)]
  }

  /** The object that holds a key. */
  function Home(k: Key): Section {
    match k
    case OfDaemon(_) => Top(Daemon)
    case OfHost(_) => Top(Host)
    case WorkflowExceptionRouting => Top(Workflow)
    case DbPath => Top(Db)
    case OfTranscripts(_) => Top(Transcripts)
    case OfWorkspace(_) => Top(Workspace)
    case TopologyRoot => Top(Topology)
    case OfContext(_) => Top(Context)
    case SpecsBuiltinsVisible => Top(Specs)
    case SkillsRoot => Top(Skills)
    case SkillsRouterLineEnabled => Nested(SkillsRouterLine)
    case OnboardingDefaultPackEnabled => Nested(OnboardingDefaultPack)
    case OfLaunch(_) => Top(Launch)
    case OfHealthContextPressure(_) => Nested(HealthContextPressure)
    case FilesAllowlist => Top(Files)
    case ProgressScanRoots => Top(Progress)
    case OfUi(_) => Top(Ui)
    case OfUiPreview(_) => Nested(UiPreview)
    case OfRecovery(_) => Top(Recovery)
    case OfAgents(_) => Top(Agents)
    case OfFeedSubscriptions(_) => Nested(FeedSubscriptions)
    case RuntimeReadinessTimeoutSeconds => Top(Runtime)
    case RuntimeCodexHooksEnabled => Nested(RuntimeCodex)
    case OfPoliciesClaudeCompaction(_) => Nested(PoliciesClaudeCompaction)
    case OfPoliciesIdleGateQitem(_) => Nested(PoliciesIdleGateQitem)
    case OfSnapshotsPeriodic(_) => Nested(SnapshotsPeriodic)
    case OfTerminal(_) => Top(Terminal)
    case OfOutput(_) => Top(Output)
    case OfProvider(_) => Top(Provider)
    case BundleServicesEnabled => Top(Bundle)
    case OfUsage(_) => Top(Usage)
    case OfTransport(_) => Top(Transport)
    case OfDecisions(_) => Top(Decisions)
    case OfRetention(_) => Top(Retention)
    case StreamIntake => Top(Stream)
    case OfQueue(_) => Top(Queue)
  }

  function DaemonName(k: DaemonKey): string {
    match k
    case DaemonPort => "port"
    case DaemonHost => "host"
    case DaemonDbConflict => "dbConflict"
  }

  function HostName(k: HostKey): string {
    match k
    case HostSelected => "selected"
    case HostName => "name"
  }

  function TranscriptsName(k: TranscriptsKey): string {
    match k
    case TranscriptsEnabled => "enabled"
    case TranscriptsPath => "path"
    case TranscriptsLines => "lines"
    case TranscriptsPollIntervalSeconds => "pollIntervalSeconds"
  }

  function WorkspaceName(k: WorkspaceKey): string {
    match k
    case WorkspaceRoot => "root"
    case WorkspaceSlicesRoot => "slicesRoot"
    case WorkspaceSteeringPath => "steeringPath"
    case WorkspaceSpecsRoot => "specsRoot"
    case WorkspaceProjectsRoot => "projectsRoot"
    case WorkspaceCatalogPath => "catalogPath"
    case WorkspaceOperatorSeatName => "operatorSeatName"
  }

  function ContextName(k: ContextKey): string {
    match k
    case ContextRoot => "root"
    case ContextSystemWorld => "systemWorld"
  }

  function LaunchName(k: LaunchKey): string {
    match k
    case LaunchNonInterruptive => "nonInterruptive"
    case LaunchCodexLoginShell => "codexLoginShell"
  }

  function HealthContextPressureName(k: HealthContextPressureKey): string {
    match k
    case HealthContextPressureWarningPercent => "warningPercent"
    case HealthContextPressureCriticalPercent => "criticalPercent"
  }

  function UiName(k: UiKey): string {
    match k
    case UiTimezone => "timezone"
    case UiEnabled => "enabled"
  }

  function UiPreviewName(k: UiPreviewKey): string {
    match k
    case UiPreviewRefreshIntervalSeconds => "refreshIntervalSeconds"
    case UiPreviewMaxPins => "maxPins"
    case UiPreviewDefaultLines => "defaultLines"
  }

  function RecoveryName(k: RecoveryKey): string {
    match k
    case RecoveryAutoDriveProviderPrompts => "autoDriveProviderPrompts"
    case RecoveryProviderAuthEnvAllowlist => "providerAuthEnvAllowlist"
  }

  function AgentsName(k: AgentsKey): string {
    match k
    case AgentsAdvisorSession => "advisorSession"
    case AgentsOperatorSession => "operatorSession"
  }

  function FeedSubscriptionsName(k: FeedSubscriptionsKey): string {
    match k
    case FeedSubscriptionsActionRequired => "actionRequired"
    case FeedSubscriptionsApprovals => "approvals"
    case FeedSubscriptionsShipped => "shipped"
    case FeedSubscriptionsProgress => "progress"
    case FeedSubscriptionsAuditLog => "auditLog"
  }

  function PoliciesClaudeCompactionName(k: PoliciesClaudeCompactionKey): string {
    match k
    case PoliciesClaudeCompactionPreparationRoot => "preparationRoot"
    case PoliciesClaudeCompactionEnabled => "enabled"
    case PoliciesClaudeCompactionThresholdPercent => "thresholdPercent"
    case PoliciesClaudeCompactionPreCompactInstruction => "preCompactInstruction"
    case PoliciesClaudeCompactionCompactInstruction => "compactInstruction"
    case PoliciesClaudeCompactionMessageInline => "messageInline"
    case PoliciesClaudeCompactionMessageFilePath => "messageFilePath"
    case PoliciesClaudeCompactionPostRestoreAuditInstruction => "postRestoreAuditInstruction"
  }

  function PoliciesIdleGateQitemName(k: PoliciesIdleGateQitemKey): string {
    match k
    case PoliciesIdleGateQitemScanIntervalSeconds => "scanIntervalSeconds"
    case PoliciesIdleGateQitemActiveWakeIntervalSeconds => "activeWakeIntervalSeconds"
    case PoliciesIdleGateQitemAutoRegister => "autoRegister"
    case PoliciesIdleGateQitemOptInSessions => "optInSessions"
  }

  function SnapshotsPeriodicName(k: SnapshotsPeriodicKey): string {
    match k
    case SnapshotsPeriodicEnabled => "enabled"
    case SnapshotsPeriodicIntervalSeconds => "intervalSeconds"
    case SnapshotsPeriodicRetentionKeep => "retentionKeep"
  }

  function TerminalName(k: TerminalKey): string {
    match k
    case TerminalStatusBar => "statusBar"
    case TerminalTmuxServer => "tmuxServer"
    case TerminalHistoryLimit => "historyLimit"
    case TerminalInheritTmuxEnvironment => "inheritTmuxEnvironment"
  }

  function OutputName(k: OutputKey): string {
    match k
    case OutputCompact => "compact"
    case OutputWhoamiPeers => "whoamiPeers"
  }

  function ProviderName(k: ProviderKey): string {
    match k
    case ProviderUsageWindows => "usageWindows"
    case ProviderSelected => "selected"
  }

  function UsageName(k: UsageKey): string {
    match k
    case UsagePiCostFacts => "piCostFacts"
    case UsagePiOpenrouterCharge => "piOpenRouterCharge"
  }

  function TransportName(k: TransportKey): string {
    match k
    case TransportLocalUserGuard => "localUserGuard"
    case TransportVerifyInputBox => "verifyInputBox"
    case TransportDraftDelivery => "draftDelivery"
  }

  function DecisionsName(k: DecisionsKey): string {
    match k
    case DecisionsEnabled => "enabled"
    case DecisionsConsumers => "consumers"
    case DecisionsTemplateDir => "templateDir"
  }

  function RetentionName(k: RetentionKey): string {
    match k
    case RetentionEnabled => "enabled"
    case RetentionTransitionsDays => "transitionsDays"
    case RetentionWatchdogDays => "watchdogDays"
    case RetentionWatchdogKeepPerJob => "watchdogKeepPerJob"
    case RetentionStreamDays => "streamDays"
    case RetentionStreamMaxItems => "streamMaxItems"
    case RetentionBatchSize => "batchSize"
  }

  function QueueName(k: QueueKey): string {
    match k
    case QueuePickupStallThresholdMinutes => "pickupStallThresholdMinutes"
    case QueueStuckSweepIntervalSeconds => "stuckSweepIntervalSeconds"
    case QueueStuckSweepUnclaimedAgeMinutes => "stuckSweepUnclaimedAgeMinutes"
    case QueueWakeRetryIntervalSeconds => "wakeRetryIntervalSeconds"
    case QueueWakeRetryCap => "wakeRetryCap"
    case QueueWakeUnconfirmedWindowMinutes => "wakeUnconfirmedWindowMinutes"
    case QueueWakeSwapGraceSeconds => "wakeSwapGraceSeconds"
    case QueueWakeHumanRung => "wakeHumanRung"
  }

  /** The key's name in that object. */
  function NameOf(k: Key): string {
    match k
    case OfDaemon(k) => DaemonName(k)
    case OfHost(k) => HostName(k)
    case WorkflowExceptionRouting => "exceptionRouting"
    case DbPath => "path"
    case OfTranscripts(k) => TranscriptsName(k)
    case OfWorkspace(k) => WorkspaceName(k)
    case TopologyRoot => "root"
    case OfContext(k) => ContextName(k)
    case SpecsBuiltinsVisible => "builtinsVisible"
    case SkillsRoot => "root"
    case SkillsRouterLineEnabled => "enabled"
    case OnboardingDefaultPackEnabled => "enabled"
    case OfLaunch(k) => LaunchName(k)
    case OfHealthContextPressure(k) => HealthContextPressureName(k)
    case FilesAllowlist => "allowlist"
    case ProgressScanRoots => "scanRoots"
    case OfUi(k) => UiName(k)
    case OfUiPreview(k) => UiPreviewName(k)
    case OfRecovery(k) => RecoveryName(k)
    case OfAgents(k) => AgentsName(k)
    case OfFeedSubscriptions(k) => FeedSubscriptionsName(k)
    case RuntimeReadinessTimeoutSeconds => "readinessTimeoutSeconds"
    case RuntimeCodexHooksEnabled => "hooksEnabled"
    case OfPoliciesClaudeCompaction(k) => PoliciesClaudeCompactionName(k)
    case OfPoliciesIdleGateQitem(k) => PoliciesIdleGateQitemName(k)
    case OfSnapshotsPeriodic(k) => SnapshotsPeriodicName(k)
    case OfTerminal(k) => TerminalName(k)
    case OfOutput(k) => OutputName(k)
    case OfProvider(k) => ProviderName(k)
    case BundleServicesEnabled => "servicesEnabled"
    case OfUsage(k) => UsageName(k)
    case OfTransport(k) => TransportName(k)
    case OfDecisions(k) => DecisionsName(k)
    case OfRetention(k) => RetentionName(k)
    case StreamIntake => "intake"
    case OfQueue(k) => QueueName(k)
  }

  /** KEY_TO_PATH, and a host's path. */
  function PathOf(a: Address): (p: Path)
    ensures p != []
  {
    match a
    case Registered(k) => SectionPath(Home(k)) + [NameOf(k)]
    case PerHost(h) => ["feed", "subscriptions", h, "enabled"]
  }

  // ---------------------------------------------------------------------------------------------
  // Keys that name a host

  predicate HostChar(c: char) {
    'a' <= c <= 'z' || 'A' <= c <= 'Z' || '0' <= c <= '9' || c == '_' || c == '.' || c == '-'
  }

  /** FEED_HOST_RESERVED_SEGMENTS. */
  const RESERVED: set<string> := {
    "action_required", "actionRequired", "approvals", "shipped", "progress", "audit_log", "auditLog", "enabled"
  }

  predicate HostId(h: string) {
    h != "" && (forall i :: 0 <= i < |h| ==> HostChar(h[i])) && h !in RESERVED
  }

  const PREFIX := "feed.subscriptions."
  const SUFFIX := ".enabled"

  /** `parseFeedHostSubscriptionKey`. */
  function ParseHostKey(key: string): Option<string> {
    var from, to := |PREFIX|, |key| - |SUFFIX|;
    if from < to && PREFIX <= key && key[to..] == SUFFIX && HostId(key[from..to]) then Some(key[from..to])
    else None
  }

  /** The fixed ends delimit the host id, dots and all: a host's key parses to that host, and no other
      key does. */
  lemma HostKeysParse(key: string, h: string)
    ensures ParseHostKey(key) == Some(h) <==> HostId(h) && key == PREFIX + h + SUFFIX
  {
    var whole := PREFIX + h + SUFFIX;
    assert whole[|whole| - |SUFFIX|..] == SUFFIX && whole[|PREFIX|..|whole| - |SUFFIX|] == h;
    if ParseHostKey(key) == Some(h) {
      assert key == key[..|PREFIX|] + h + key[|key| - |SUFFIX|..];
    }
  }

  /** A key of the store is well formed when its host, if it names one, may be named. */
  predicate WellFormed(a: Address) {
    a.PerHost? ==> HostId(a.host)
  }

  // ---------------------------------------------------------------------------------------------
  // Paths are free of prefixes

  /** The object with the name: its length and a letter or two tell it. */
  function TopNamed(name: string): Top {
    match |name|
    case 2 => if name[0] == 'd' then Db else Ui
    case 4 => if name[0] == 'h' then Host else Feed
    case 5 =>
      if name[0] == 's' then Specs else if name[0] == 'f' then Files else if name[0] == 'u' then Usage else
      Queue
    case 6 =>
      if name[0] == 'd' then Daemon else if name[0] == 'l' then Launch else if name[0] == 'h' then Health else
      if name[0] == 'a' then Agents else if name[0] == 'o' then Output else if name[0] == 'b' then Bundle else
      if name[1] == 'k' then Skills else Stream
    case 7 => if name[0] == 'c' then Context else Runtime
    case 8 =>
      if name[3] == 'k' then Workflow else if name[3] == 'g' then Progress else
      if name[3] == 'i' then Policies else if name[3] == 'm' then Terminal else
      if name[3] == 'v' then Provider else if name[0] == 't' then Topology else Recovery
    case 9 =>
      if name[0] == 'w' then Workspace else if name[0] == 's' then Snapshots else
      if name[0] == 't' then Transport else if name[0] == 'd' then Decisions else Retention
    case 10 => Onboarding
    case 11 => Transcripts
    case _ => Daemon
  }

  lemma TopIsNamed(t: Top)
    ensures TopNamed(TopName(t)) == t
  {
  }

  lemma NestedNamesDiffer(m: Nested, n: Nested)
    requires NestedName(m) == NestedName(n)
    ensures m == n
  {
  }

  lemma SectionsDiffer(s: Section, t: Section)
    requires SectionPath(s) == SectionPath(t)
    ensures s == t
  {
    assert |SectionPath(s)| == |SectionPath(t)|;
    if s.Top? {
      assert TopName(s.top) == SectionPath(s)[0] == SectionPath(t)[0] == TopName(t.top);
      TopIsNamed(s.top);
      TopIsNamed(t.top);
    } else if s.Nested? {
      assert NestedName(s.nested) == SectionPath(s)[1] == SectionPath(t)[1] == NestedName(t.nested);
      NestedNamesDiffer(s.nested, t.nested);
    }
  }

  lemma DaemonNames(j: DaemonKey, k: DaemonKey)
    requires NameOf(OfDaemon(j)) == NameOf(OfDaemon(k))
    ensures j == k
  {
  }

  lemma HostNames(j: HostKey, k: HostKey)
    requires NameOf(OfHost(j)) == NameOf(OfHost(k))
    ensures j == k
  {
  }

  lemma TranscriptsNames(j: TranscriptsKey, k: TranscriptsKey)
    requires NameOf(OfTranscripts(j)) == NameOf(OfTranscripts(k))
    ensures j == k
  {
  }

  lemma WorkspaceNames(j: WorkspaceKey, k: WorkspaceKey)
    requires NameOf(OfWorkspace(j)) == NameOf(OfWorkspace(k))
    ensures j == k
  {
  }

  lemma ContextNames(j: ContextKey, k: ContextKey)
    requires NameOf(OfContext(j)) == NameOf(OfContext(k))
    ensures j == k
  {
  }

  lemma LaunchNames(j: LaunchKey, k: LaunchKey)
    requires NameOf(OfLaunch(j)) == NameOf(OfLaunch(k))
    ensures j == k
  {
  }

  lemma HealthContextPressureNames(j: HealthContextPressureKey, k: HealthContextPressureKey)
    requires NameOf(OfHealthContextPressure(j)) == NameOf(OfHealthContextPressure(k))
    ensures j == k
  {
  }

  lemma UiNames(j: UiKey, k: UiKey)
    requires NameOf(OfUi(j)) == NameOf(OfUi(k))
    ensures j == k
  {
  }

  lemma UiPreviewNames(j: UiPreviewKey, k: UiPreviewKey)
    requires NameOf(OfUiPreview(j)) == NameOf(OfUiPreview(k))
    ensures j == k
  {
  }

  lemma RecoveryNames(j: RecoveryKey, k: RecoveryKey)
    requires NameOf(OfRecovery(j)) == NameOf(OfRecovery(k))
    ensures j == k
  {
  }

  lemma AgentsNames(j: AgentsKey, k: AgentsKey)
    requires NameOf(OfAgents(j)) == NameOf(OfAgents(k))
    ensures j == k
  {
  }

  lemma FeedSubscriptionsNames(j: FeedSubscriptionsKey, k: FeedSubscriptionsKey)
    requires NameOf(OfFeedSubscriptions(j)) == NameOf(OfFeedSubscriptions(k))
    ensures j == k
  {
  }

  lemma PoliciesClaudeCompactionNames(j: PoliciesClaudeCompactionKey, k: PoliciesClaudeCompactionKey)
    requires NameOf(OfPoliciesClaudeCompaction(j)) == NameOf(OfPoliciesClaudeCompaction(k))
    ensures j == k
  {
  }

  lemma PoliciesIdleGateQitemNames(j: PoliciesIdleGateQitemKey, k: PoliciesIdleGateQitemKey)
    requires NameOf(OfPoliciesIdleGateQitem(j)) == NameOf(OfPoliciesIdleGateQitem(k))
    ensures j == k
  {
  }

  lemma SnapshotsPeriodicNames(j: SnapshotsPeriodicKey, k: SnapshotsPeriodicKey)
    requires NameOf(OfSnapshotsPeriodic(j)) == NameOf(OfSnapshotsPeriodic(k))
    ensures j == k
  {
  }

  lemma TerminalNames(j: TerminalKey, k: TerminalKey)
    requires NameOf(OfTerminal(j)) == NameOf(OfTerminal(k))
    ensures j == k
  {
  }

  lemma OutputNames(j: OutputKey, k: OutputKey)
    requires NameOf(OfOutput(j)) == NameOf(OfOutput(k))
    ensures j == k
  {
  }

  lemma ProviderNames(j: ProviderKey, k: ProviderKey)
    requires NameOf(OfProvider(j)) == NameOf(OfProvider(k))
    ensures j == k
  {
  }

  lemma UsageNames(j: UsageKey, k: UsageKey)
    requires NameOf(OfUsage(j)) == NameOf(OfUsage(k))
    ensures j == k
  {
  }

  lemma TransportNames(j: TransportKey, k: TransportKey)
    requires NameOf(OfTransport(j)) == NameOf(OfTransport(k))
    ensures j == k
  {
  }

  lemma DecisionsNames(j: DecisionsKey, k: DecisionsKey)
    requires NameOf(OfDecisions(j)) == NameOf(OfDecisions(k))
    ensures j == k
  {
  }

  lemma RetentionNames(j: RetentionKey, k: RetentionKey)
    requires NameOf(OfRetention(j)) == NameOf(OfRetention(k))
    ensures j == k
  {
  }

  lemma QueueNames(j: QueueKey, k: QueueKey)
    requires NameOf(OfQueue(j)) == NameOf(OfQueue(k))
    ensures j == k
  {
  }

  /** Keys of one object are of one kind. */
  lemma SameKind(j: Key, k: Key)
    requires Home(j) == Home(k)
    ensures j.OfDaemon? <==> k.OfDaemon?
    ensures j.OfHost? <==> k.OfHost?
    ensures j.OfTranscripts? <==> k.OfTranscripts?
    ensures j.OfWorkspace? <==> k.OfWorkspace?
    ensures j.OfContext? <==> k.OfContext?
    ensures j.OfLaunch? <==> k.OfLaunch?
    ensures j.OfHealthContextPressure? <==> k.OfHealthContextPressure?
    ensures j.OfUi? <==> k.OfUi?
    ensures j.OfUiPreview? <==> k.OfUiPreview?
    ensures j.OfRecovery? <==> k.OfRecovery?
    ensures j.OfAgents? <==> k.OfAgents?
    ensures j.OfFeedSubscriptions? <==> k.OfFeedSubscriptions?
    ensures j.OfPoliciesClaudeCompaction? <==> k.OfPoliciesClaudeCompaction?
    ensures j.OfPoliciesIdleGateQitem? <==> k.OfPoliciesIdleGateQitem?
    ensures j.OfSnapshotsPeriodic? <==> k.OfSnapshotsPeriodic?
    ensures j.OfTerminal? <==> k.OfTerminal?
    ensures j.OfOutput? <==> k.OfOutput?
    ensures j.OfProvider? <==> k.OfProvider?
    ensures j.OfUsage? <==> k.OfUsage?
    ensures j.OfTransport? <==> k.OfTransport?
    ensures j.OfDecisions? <==> k.OfDecisions?
    ensures j.OfRetention? <==> k.OfRetention?
    ensures j.OfQueue? <==> k.OfQueue?
    ensures (!j.OfDaemon? && !j.OfHost? && !j.OfTranscripts? && !j.OfWorkspace? && !j.OfContext? && !j.OfLaunch?
      && !j.OfHealthContextPressure? && !j.OfUi? && !j.OfUiPreview? && !j.OfRecovery? && !j.OfAgents?
      && !j.OfFeedSubscriptions? && !j.OfPoliciesClaudeCompaction? && !j.OfPoliciesIdleGateQitem?
      && !j.OfSnapshotsPeriodic? && !j.OfTerminal? && !j.OfOutput? && !j.OfProvider? && !j.OfUsage?
      && !j.OfTransport? && !j.OfDecisions? && !j.OfRetention? && !j.OfQueue?)
      ==> j == k
  {
  }

  lemma NamesDiffer(j: Key, k: Key)
    requires j != k && Home(j) == Home(k)
    ensures NameOf(j) != NameOf(k)
  {
    if NameOf(j) == NameOf(k) {
      SameKind(j, k);
      match j
      case OfDaemon(a) => DaemonNames(a, k.daemon);
      case OfHost(a) => HostNames(a, k.host);
      case OfTranscripts(a) => TranscriptsNames(a, k.transcripts);
      case OfWorkspace(a) => WorkspaceNames(a, k.workspace);
      case OfContext(a) => ContextNames(a, k.context);
      case OfLaunch(a) => LaunchNames(a, k.launch);
      case OfHealthContextPressure(a) => HealthContextPressureNames(a, k.healthContextPressure);
      case OfUi(a) => UiNames(a, k.ui);
      case OfUiPreview(a) => UiPreviewNames(a, k.uiPreview);
      case OfRecovery(a) => RecoveryNames(a, k.recovery);
      case OfAgents(a) => AgentsNames(a, k.agents);
      case OfFeedSubscriptions(a) => FeedSubscriptionsNames(a, k.feedSubscriptions);
      case OfPoliciesClaudeCompaction(a) => PoliciesClaudeCompactionNames(a, k.policiesClaudeCompaction);
      case OfPoliciesIdleGateQitem(a) => PoliciesIdleGateQitemNames(a, k.policiesIdleGateQitem);
      case OfSnapshotsPeriodic(a) => SnapshotsPeriodicNames(a, k.snapshotsPeriodic);
      case OfTerminal(a) => TerminalNames(a, k.terminal);
      case OfOutput(a) => OutputNames(a, k.output);
      case OfProvider(a) => ProviderNames(a, k.provider);
      case OfUsage(a) => UsageNames(a, k.usage);
      case OfTransport(a) => TransportNames(a, k.transport);
      case OfDecisions(a) => DecisionsNames(a, k.decisions);
      case OfRetention(a) => RetentionNames(a, k.retention);
      case OfQueue(a) => QueueNames(a, k.queue);
      case _ =>
    }
  }

  /** The keys that lie beside a further object. */
  lemma KeyBeside(k: Key, n: Nested)
    requires Home(k) == Top(Above(n))
    ensures (n.SkillsRouterLine? && k.SkillsRoot?) || (n.UiPreview? && k.OfUi?)
      || (n.RuntimeCodex? && k.RuntimeReadinessTimeoutSeconds?)
  {
  }

  lemma UiNamedApart(k: UiKey)
    ensures NameOf(OfUi(k)) != NestedName(UiPreview)
  {
    assert |UiName(k)| == |"preview"| ==> UiName(k)[0] == 'e';
  }

  lemma NamedApart(k: Key, n: Nested)
    requires Home(k) == Top(Above(n))
    ensures NameOf(k) != NestedName(n)
  {
    KeyBeside(k, n);
    match n
    case SkillsRouterLine => assert |NameOf(SkillsRoot)| == 4;
    case UiPreview => UiNamedApart(k.ui);
    case RuntimeCodex => assert NameOf(RuntimeReadinessTimeoutSeconds)[0] == 'r';
    case _ =>
  }

  /** No object has a key and a further object under one name. */
  lemma KeyIsNoSection(k: Key, s: Section)
    ensures SectionPath(s) != SectionPath(Home(k)) + [NameOf(k)]
  {
    var p := SectionPath(Home(k)) + [NameOf(k)];
    HomeDepth(k);
    if SectionPath(s) == p {
      assert |p| == 2 && s.Nested? && Home(k).Top?;
      assert TopName(Above(s.nested)) == p[0] == TopName(Home(k).top) && NestedName(s.nested) == p[1] == NameOf(k);
      TopIsNamed(Above(s.nested));
      TopIsNamed(Home(k).top);
      NamedApart(k, s.nested);
    }
  }

  lemma LastOf(p: Path, x: string)
    ensures (p + [x])[..|p|] == p && (p + [x])[|p|..] == [x]
  {
  }

  lemma HomeDepth(k: Key)
    ensures Home(k) != Root && |SectionPath(Home(k))| == if Home(k).Top? then 1 else 2
  {
  }

  lemma {:induction false} KeyPathsAreApart(j: Key, k: Key)
    requires j != k
    ensures !(PathOf(Registered(j)) <= PathOf(Registered(k)))
  {
    var p, q := PathOf(Registered(j)), PathOf(Registered(k));
    var s, m := Home(j), NameOf(j);
    var t, n := Home(k), NameOf(k);
    HomeDepth(j);
    HomeDepth(k);
    if p <= q {
      if |p| == |q| {
        assert SectionPath(s) == p[..|p| - 1] == q[..|q| - 1] == SectionPath(t);
        assert m == p[|p| - 1] == q[|q| - 1] == n;
        SectionsDiffer(s, t);
        NamesDiffer(j, k);
      } else {
        assert p == q[..|q| - 1] == SectionPath(t);
        KeyIsNoSection(j, t);
      }
    }
  }

  /** What a key under `feed.subscriptions` is called, no host is. */
  lemma TogglesAreReserved(k: FeedSubscriptionsKey)
    ensures FeedSubscriptionsName(k) in RESERVED
  {
  }

  /** The object that holds a host's key holds no registered key, and none lies on the way to it. */
  lemma {:induction false} HostIsApartFromKeys(h: string, k: Key)
    requires HostId(h)
    ensures Apart(["feed", "subscriptions", h], PathOf(Registered(k)))
  {
    var f := ["feed", "subscriptions"];
    var p, q := f + [h], PathOf(Registered(k));
    var s, name := Home(k), NameOf(k);
    assert p == ["feed", "subscriptions", h] && SectionPath(Nested(FeedSubscriptions)) == f;
    HomeDepth(k);
    if p <= q || (q <= p && |q| == 3) {
      assert q == p;
      assert SectionPath(s) == q[..2] == p[..2] == f && name == q[2] == h;
      SectionsDiffer(s, Nested(FeedSubscriptions));
      TogglesAreReserved(k.feedSubscriptions);
    } else if q <= p {
      assert q == p[..2] == f;
      KeyIsNoSection(k, Nested(FeedSubscriptions));
    }
  }

  lemma {:induction false} HostsAreApart(g: string, h: string)
    requires g != h
    ensures Apart(["feed", "subscriptions", g], ["feed", "subscriptions", h, "enabled"])
  {
    var p, q := ["feed", "subscriptions", g], ["feed", "subscriptions", h, "enabled"];
    assert p[2] == g && q[2] == h;
  }

  lemma LongerIsApart(p: Path, x: string, q: Path)
    requires Apart(p, q)
    ensures Apart(p + [x], q)
  {
    PrefixOfLonger(p, x, q);
  }

  lemma PrefixOfLonger(p: Path, x: string, q: Path)
    ensures q <= p + [x] ==> q <= p || p <= q
  {
    LastOf(p, x);
    if q <= p + [x] && |q| <= |p| {
      assert q == (p + [x])[..|q|] == p[..|q|];
    }
  }

  /** The object a host's key lives in, which a reset removes whole, is apart from every other key. */
  lemma {:induction false} HostObjectIsApart(h: string, b: Address)
    requires HostId(h) && WellFormed(b) && b != PerHost(h)
    ensures Apart(["feed", "subscriptions", h], PathOf(b))
  {
    if b.PerHost? {
      HostsAreApart(h, b.host);
    } else {
      HostIsApartFromKeys(h, b.key);
    }
  }

  /** The paths of two different keys are apart, per-host keys included: no key's value lies on the way
      to another's. */
  lemma {:induction false} PathsAreApart(a: Address, b: Address)
    requires WellFormed(a) && WellFormed(b) && a != b
    ensures Apart(PathOf(a), PathOf(b))
  {
    if a.PerHost? {
      HostObjectIsApart(a.host, b);
      LongerIsApart(["feed", "subscriptions", a.host], "enabled", PathOf(b));
    } else if b.PerHost? {
      HostObjectIsApart(b.host, a);
      LongerIsApart(["feed", "subscriptions", b.host], "enabled", PathOf(a));
    } else {
      KeyPathsAreApart(a.key, b.key);
      KeyPathsAreApart(b.key, a.key);
    }
  }

  const TOGGLE := OfFeedSubscriptions(FeedSubscriptionsApprovals)

  /** Without the reserved names a host could be called like a toggle, and the paths would meet. */
  lemma ReservedNamesAreNeeded()
    ensures !Apart(PathOf(Registered(TOGGLE)), PathOf(PerHost("approvals")))
  {
    var p, q := PathOf(Registered(TOGGLE)), PathOf(PerHost("approvals"));
    assert q[..3] == p;
  }
}
