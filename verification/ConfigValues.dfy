/** Values of configuration keys: what `set` makes of the text it is given, and what a reader accepts of
    the file. packages/cli/src/config-store.ts:935-1187.

    Numbers read from text are exact integers here; JavaScript's are, below 2^53. */
module ConfigValues {
  import opened Options
  import opened ConfigTree
  import opened ConfigKeys
  import opened JsText

  // ---------------------------------------------------------------------------------------------
  // Text

  predicate Digit(c: char) {
    '0' <= c <= '9'
  }

  /** /^\d+$/. */
  predicate Digits(s: string) {
    s != "" && forall i :: 0 <= i < |s| ==> Digit(s[i])
  }

  /** /^-?\d+$/. */
  predicate SignedDigits(s: string) {
    Digits(s) || (s != "" && s[0] == '-' && Digits(s[1..]))
  }

  /** The number the leading digits spell. */
  function Leading(s: string, so: nat): nat {
    if s != "" && Digit(s[0]) then Leading(s[1..], so * 10 + (s[0] - '0') as nat) else so
  }

  /** `parseInt(raw, 10)`, None for NaN: leading space and a sign are skipped, and whatever follows the
      digits is ignored. */
  function ParseInt(raw: string): Option<int> {
    var s := TrimStart(raw);
    var negative := s != "" && s[0] == '-';
    var rest := if s != "" && (s[0] == '-' || s[0] == '+') then s[1..] else s;
    var n: int := Leading(rest, 0);
    if rest != "" && Digit(rest[0]) then Some(if negative then -n else n) else None
  }

  function PrintNat(n: nat): (s: string)
    ensures Digits(s)
  {
    var last := ['0' + (n % 10) as char];
    if n < 10 then last else PrintNat(n / 10) + last
  }

  function PrintInt(n: int): string {
    if n < 0 then ['-'] + PrintNat(-n) else PrintNat(n)
  }

  lemma {:induction false} LeadingAppend(d: string, c: char, so: nat)
    requires (forall i :: 0 <= i < |d| ==> Digit(d[i])) && Digit(c)
    ensures Leading(d + [c], so) == 10 * Leading(d, so) + (c - '0') as nat
  {
    if d == "" {
      assert d + [c] == [c] && [c][1..] == "";
    } else {
      assert (d + [c])[1..] == d[1..] + [c];
      LeadingAppend(d[1..], c, so * 10 + (d[0] - '0') as nat);
    }
  }

  lemma {:induction false} PrintedValue(n: nat)
    ensures Leading(PrintNat(n), 0) == n
  {
    var last := '0' + (n % 10) as char;
    if n < 10 {
      assert [last][1..] == "";
    } else {
      PrintedValue(n / 10);
      LeadingAppend(PrintNat(n / 10), last, 0);
    }
  }

  /** Reading back a printed integer gives it. */
  lemma {:induction false} ParsePrinted(n: int)
    ensures ParseInt(PrintInt(n)) == Some(n)
  {
    var s := PrintInt(n);
    assert !Space('-');
    assert s == TrimStart(s);
    if n < 0 {
      assert s[1..] == PrintNat(-n);
      PrintedValue(-n);
    } else {
      PrintedValue(n);
    }
  }

  lemma {:induction false} PrintedNeedsNoTrim(n: int)
    ensures Trim(PrintInt(n)) == PrintInt(n)
    ensures SignedDigits(PrintInt(n)) && (n >= 0 ==> Digits(PrintInt(n)))
  {
    var s := PrintInt(n);
    if n < 0 {
      assert s[1..] == PrintNat(-n);
      assert Digit(s[1..][|s| - 2]);
    } else {
      assert Digit(s[0]) && Digit(s[|s| - 1]);
    }
  }

  lemma {:induction false} TrimEndKeepsFront(s: string)
    ensures TrimEnd(s) != "" ==> s != "" && TrimEnd(s)[0] == s[0]
  {
    if s != "" && Space(s[|s| - 1]) {
      TrimEndKeepsFront(s[..|s| - 1]);
    }
  }

  lemma DigitsAreNotNegative(raw: string)
    requires Digits(Trim(raw)) && ParseInt(raw).Some?
    ensures ParseInt(raw).value >= 0
  {
    TrimEndKeepsFront(TrimStart(raw));
  }

  // ---------------------------------------------------------------------------------------------
  // What each key takes

  /** A range; no upper bound when `hi` is None. */
  datatype Range = Range(lo: int, hi: Option<int>)

  datatype Kind =
    | Flag
    | AnyWhole                          // whatever parseInt makes of it
    | Whole(range: Range)               // digits only
    | SignedWhole(least: Range)         // digits, or "-" and digits
    | Port
    | AnyText
    | OneOf(words: set<string>)
    | TextOf(texts: set<string>)        // the same, asked of the value
    | TrimmedOneOf(trimmed: set<string>)
    | Intake
    | AbsoluteOrEmpty
    | Zone

  function KindOf(k: Key): Kind {
    match k
    case OfDaemon(DaemonPort) => Port
    case OfDaemon(DaemonDbConflict) => OneOf({"warn", "stop"})
    case OfTranscripts(TranscriptsLines) => Whole(Range(1, Some(1000000)))
    case OfTranscripts(TranscriptsPollIntervalSeconds) => Whole(Range(1, Some(3600)))
    case RuntimeReadinessTimeoutSeconds => Whole(Range(1, Some(600)))
    case OfTerminal(TerminalTmuxServer) => OneOf({"inherit", "isolated"})
    case OfTerminal(TerminalHistoryLimit) => Whole(Range(2000, Some(1000000)))
    case OfTransport(TransportDraftDelivery) => OneOf({"refuse", "deliver"})
    case OfUi(UiTimezone) => Zone
    case OfHealthContextPressure(HealthContextPressureWarningPercent)
    | OfHealthContextPressure(HealthContextPressureCriticalPercent) => Whole(Range(1, Some(100)))
    case OfPoliciesIdleGateQitem(PoliciesIdleGateQitemScanIntervalSeconds)
    | OfPoliciesIdleGateQitem(PoliciesIdleGateQitemActiveWakeIntervalSeconds)
    | OfQueue(QueuePickupStallThresholdMinutes) | OfQueue(QueueStuckSweepIntervalSeconds)
    | OfQueue(QueueStuckSweepUnclaimedAgeMinutes) | OfQueue(QueueWakeRetryIntervalSeconds)
    | OfQueue(QueueWakeRetryCap) | OfQueue(QueueWakeUnconfirmedWindowMinutes)
    | OfQueue(QueueWakeSwapGraceSeconds) => Whole(Range(1, None))
    case OfPoliciesIdleGateQitem(PoliciesIdleGateQitemAutoRegister) => TrimmedOneOf({"off", "all"})
    case OfProvider(ProviderSelected) => TextOf({"", "claude", "codex", "claude,codex", "codex,claude"})
    case OfPoliciesClaudeCompaction(PoliciesClaudeCompactionPreparationRoot) | OfDecisions(DecisionsTemplateDir)
    => AbsoluteOrEmpty
    case OfPoliciesClaudeCompaction(PoliciesClaudeCompactionThresholdPercent)
    => SignedWhole(Range(1, Some(100)))
    case OfSnapshotsPeriodic(SnapshotsPeriodicIntervalSeconds) => SignedWhole(Range(60, None))
    case OfSnapshotsPeriodic(SnapshotsPeriodicRetentionKeep) | OfOutput(OutputWhoamiPeers)
    | OfRetention(RetentionTransitionsDays) | OfRetention(RetentionWatchdogDays)
    | OfRetention(RetentionStreamDays) | OfRetention(RetentionStreamMaxItems) | OfRetention(RetentionBatchSize)
    => SignedWhole(Range(1, None))
    case OfRetention(RetentionWatchdogKeepPerJob) => SignedWhole(Range(0, None))
    case StreamIntake => Intake
    case OfQueue(QueueWakeHumanRung) => OneOf({"always", "explicit-only"})
    case OfUiPreview(UiPreviewRefreshIntervalSeconds) | OfUiPreview(UiPreviewMaxPins)
    | OfUiPreview(UiPreviewDefaultLines) => AnyWhole
    case OfTranscripts(TranscriptsEnabled) | SpecsBuiltinsVisible | SkillsRouterLineEnabled
    | OnboardingDefaultPackEnabled | OfLaunch(LaunchNonInterruptive) | OfLaunch(LaunchCodexLoginShell)
    | OfUi(UiEnabled) | OfRecovery(RecoveryAutoDriveProviderPrompts)
    | OfFeedSubscriptions(FeedSubscriptionsActionRequired) | OfFeedSubscriptions(FeedSubscriptionsApprovals)
    | OfFeedSubscriptions(FeedSubscriptionsShipped) | OfFeedSubscriptions(FeedSubscriptionsProgress)
    | OfFeedSubscriptions(FeedSubscriptionsAuditLog) | RuntimeCodexHooksEnabled
    | OfPoliciesClaudeCompaction(PoliciesClaudeCompactionEnabled)
    | OfSnapshotsPeriodic(SnapshotsPeriodicEnabled) | OfTerminal(TerminalStatusBar)
    | OfTerminal(TerminalInheritTmuxEnvironment) | OfOutput(OutputCompact) | OfProvider(ProviderUsageWindows)
    | BundleServicesEnabled | OfUsage(UsagePiCostFacts) | OfUsage(UsagePiOpenrouterCharge)
    | OfTransport(TransportLocalUserGuard) | OfTransport(TransportVerifyInputBox)
    | OfDecisions(DecisionsEnabled) | OfRetention(RetentionEnabled) => Flag
    case _ => AnyText
  }

  /** What the model does not compute: whether a time zone is known, whether a path is absolute, and how
      a number that is not a plain integer prints. */
  datatype Platform = Platform(zone: string -> bool, absolute: string -> bool, printed: real -> string)

  predicate Integral(x: real) {
    x.Floor as real == x
  }

  const PLAIN: real := 1000000000000000000000.0

  /** `String(value)`; integers below 10^21 print in full. */
  function StringOf(v: Json, p: Platform): string {
    match v
    case Null => "null"
    case Bool(b) => if b then "true" else "false"
    case Number(n) => if Integral(n) && -PLAIN < n < PLAIN then PrintInt(n.Floor) else p.printed(n)
    case Text(s) => s
    case Node(_) => "[object Object]"
  }

  /** `coerceValue`: the type of the key's default decides. */
  function Coerce(kind: Kind, raw: string): Option<Json> {
    match kind
    case AnyWhole | Whole(_) | SignedWhole(_) | Port =>
      var n := ParseInt(raw);
      if n.Some? then Some(Number(n.value as real)) else None
    case Flag =>
      if raw == "true" || raw == "1" then Some(Bool(true))
      else if raw == "false" || raw == "0" then Some(Bool(false))
      else None
    case _ => Some(Text(raw))
  }

  predicate InRange(v: Json, r: Range) {
    v.Number? && Integral(v.n) && r.lo as real <= v.n && (r.hi.Some? ==> v.n <= r.hi.value as real)
  }

  predicate SessionChar(c: char) {
    'a' <= c <= 'z' || 'A' <= c <= 'Z' || Digit(c) || c in {'-', '_', '.'}
  }

  /** /^[a-zA-Z0-9\-_.]+@[a-zA-Z0-9\-_.]+$/. */
  predicate Session(s: string) {
    exists i :: 0 < i < |s| - 1 && s[i] == '@'
      && (forall j :: 0 <= j < |s| && j != i ==> SessionChar(s[j]))
  }

  /** KEY_CONSTRAINTS: the check sees the text and the typed value. */
  predicate Allowed(kind: Kind, raw: string, v: Json, p: Platform) {
    match kind
    case Flag => true
    case AnyWhole => true
    case AnyText => true
    case Whole(r) => Digits(Trim(raw)) && InRange(v, r)
    case SignedWhole(r) => SignedDigits(Trim(raw)) && InRange(v, r)
    case Port => var n := ParseInt(StringOf(v, p)); n.Some? && 0 <= n.value <= 65535
    case OneOf(words) => raw in words
    case TextOf(texts) => v.Text? && v.text in texts
    case TrimmedOneOf(words) => Trim(raw) in words
    case Intake => Trim(raw) in {"off", "queue.worker"} || Session(Trim(raw))
    case AbsoluteOrEmpty => v.Text? && (v.text == "" || (p.absolute(v.text) && '\0' !in v.text))
    case Zone => v.Text? && v.text != "" && v.text[0] !in {'+', '-'} && p.zone(v.text)
  }

  /** `coerceAndValidate`. */
  function Accepted(kind: Kind, raw: string, p: Platform): Option<Json> {
    var v := Coerce(kind, raw);
    if v.Some? && Allowed(kind, raw, v.value, p) then v else None
  }

  /** `validateTypedFileValue`. */
  predicate Readable(kind: Kind, v: Json, p: Platform) {
    Allowed(kind, StringOf(v, p), v, p)
  }

  /** Every value `set` accepts, a reader of the file accepts: the number or text that was stored passes
      the check it passed as text. */
  lemma {:induction false} AcceptedIsReadable(kind: Kind, raw: string, p: Platform)
    requires Accepted(kind, raw, p).Some?
    requires var v := Accepted(kind, raw, p).value; v.Number? ==> -PLAIN < v.n < PLAIN
    ensures Readable(kind, Accepted(kind, raw, p).value, p)
  {
    var v := Accepted(kind, raw, p).value;
    if v.Number? {
      var n := ParseInt(raw).value;
      assert v.n == n as real && v.n.Floor == n;
      PrintedNeedsNoTrim(n);
      ParsePrinted(n);
      if Digits(Trim(raw)) {
        DigitsAreNotNegative(raw);
      }
    }
  }
}
