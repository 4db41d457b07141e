// Consent, job-state and retry policy for contributions.
module Jobs {
  import opened Options

  const CONSENT_VERSION := "consent-2026.09-en-1"

  // No recall benchmark has met the gates: production upload is refused.
  const UPLOAD_GATES_MET := false

  datatype Purpose = CustomerPersonalization | SharedModelTraining

  datatype Consent = Consent(
    id: string, version: string, purposes: set<Purpose>, grantedAt: int, expiresAt: int,
    revokedAt: Option<int>, paused: bool)
  {
    predicate IsActive(now: int) { revokedAt.None? && expiresAt > now }
  }

  datatype Target = TargetDisabled | NonProduction | Production

  datatype Refusal =
    | NoConsent | ConsentPaused | ConsentExpiredOrRevoked | ConsentVersionOutdated | PurposeNotGranted
    | SessionBeforeConsent | SessionOptedOut | LanguageNotValidated | UploadGatesUnmet | UploadDisabled

  datatype Facts = Facts(startedAt: int, optedOut: bool, language: string)

  // The first unmet condition, if any.
  function Recheck(consent: Option<Consent>, target: Target, now: int): Option<Refusal> {
    if target.TargetDisabled? then Some(UploadDisabled)
    else if target.Production? && !UPLOAD_GATES_MET then Some(UploadGatesUnmet)
    else if consent.None? then Some(NoConsent)
    else if !consent.value.IsActive(now) then Some(ConsentExpiredOrRevoked)
    else if consent.value.paused then Some(ConsentPaused)
    else if consent.value.version != CONSENT_VERSION then Some(ConsentVersionOutdated)
    else if CustomerPersonalization !in consent.value.purposes then Some(PurposeNotGranted)
    else None
  }

  function CheckSession(consent: Option<Consent>, facts: Facts, target: Target, now: int): Option<Refusal> {
    var refusal := Recheck(consent, target, now);
    if refusal.Some? then refusal
    else if facts.startedAt < consent.value.grantedAt then Some(SessionBeforeConsent)
    else if facts.optedOut then Some(SessionOptedOut)
    else if facts.language != "en" then Some(LanguageNotValidated)
    else None
  }

  // A contribution goes to a nonproduction target only, and the session is in English,
  // recorded after an unpaused grant of the current text that still holds.
  lemma ContributionNeedsEverything(consent: Option<Consent>, facts: Facts, target: Target, now: int)
    ensures CheckSession(consent, facts, target, now).None? <==>
      && target.NonProduction? && consent.Some?
      && consent.value.revokedAt.None? && now < consent.value.expiresAt && !consent.value.paused
      && consent.value.version == CONSENT_VERSION && CustomerPersonalization in consent.value.purposes
      && consent.value.grantedAt <= facts.startedAt && !facts.optedOut && facts.language == "en"
  {
  }

  // ----- the job state table ----------------------------------------------------------

  datatype JobState =
    LocalPending | Analyzing | Building | Eligible | Uploading | Acknowledged | Rejected | Deleted
  {
    predicate IsTerminal() { Acknowledged? || Rejected? || Deleted? }
  }

  const ALL_STATES := [LocalPending, Analyzing, Building, Eligible, Uploading, Acknowledged, Rejected, Deleted]

  predicate MayTransition(from: JobState, target: JobState) {
    match from
    case LocalPending => target in {Analyzing, Rejected, Deleted}
    case Analyzing => target in {Building, LocalPending, Rejected, Deleted}
    case Building => target in {Eligible, LocalPending, Rejected, Deleted}
    case Eligible => target in {Uploading, Rejected, Deleted}
    case Uploading => target in {Acknowledged, Eligible, Rejected, Deleted}
    case Acknowledged | Rejected => target == Deleted
    case Deleted => false
  }

  function Filtered(states: seq<JobState>, target: JobState): seq<JobState> {
    if states == [] then []
    else (if MayTransition(states[0], target) then [states[0]] else []) + Filtered(states[1..], target)
  }

  // Every state with an edge to `target`, as a list for the update's guard.
  function Predecessors(target: JobState): seq<JobState> {
    Filtered(ALL_STATES, target)
  }

  lemma {:induction false} FilteredHas(states: seq<JobState>, target: JobState, state: JobState)
    ensures state in Filtered(states, target) <==> state in states && MayTransition(state, target)
  {
    if states != [] {
      FilteredHas(states[1..], target, state);
    }
  }

  lemma PredecessorsAreExact(state: JobState, target: JobState)
    ensures state in Predecessors(target) <==> MayTransition(state, target)
  {
    EveryStateListed(state);
    FilteredHas(ALL_STATES, target, state);
  }

  lemma EveryStateListed(state: JobState)
    ensures state in ALL_STATES
  {
  }

  ghost predicate Path(states: seq<JobState>) {
    forall i, j :: 0 <= i && j == i + 1 && j < |states| ==> MayTransition(states[i], states[j])
  }

  // Along any path a terminal state is left only by deletion, and deletion is final.
  lemma {:induction false} TerminalIsFinal(states: seq<JobState>)
    requires Path(states) && states != [] && states[0].IsTerminal()
    ensures states[|states| - 1] == states[0] || states[|states| - 1].Deleted?
    ensures states[0].Deleted? ==> |states| == 1
    ensures |states| <= 2
  {
    if |states| > 1 {
      assert MayTransition(states[0], states[1]);
      var rest := states[1..];
      forall i, j | 0 <= i && j == i + 1 && j < |rest| ensures MayTransition(rest[i], rest[j]) {
        assert MayTransition(states[i + 1], states[j + 1]);
      }
      TerminalIsFinal(rest);
    }
  }

  // An acknowledgement is only ever reached through a transfer of an eligible job.
  lemma AcknowledgedWasUploading(state: JobState, target: JobState)
    requires MayTransition(state, target)
    ensures target.Acknowledged? ==> state.Uploading?
    ensures target.Uploading? ==> state.Eligible?
    ensures target.Eligible? ==> state.Building? || state.Uploading?
  {
  }

  // ----- retries -----------------------------------------------------------------------

  const I64_MAX: int := 0x7FFF_FFFF_FFFF_FFFF

  type i64 = x: int | -0x8000_0000_0000_0000 <= x <= I64_MAX

  datatype RetrySettings = RetrySettings(maxAttempts: nat, initialBackoff: nat, maxBackoff: nat)

  function Pow2(k: nat): (p: nat)
    ensures p > 0
  {
    if k == 0 then 1 else 2 * Pow2(k - 1)
  }

  function SmallerOf(a: int, b: int): int {
    if a <= b then a else b
  }

  // Doubling from the second attempt on, at most thirty times.
  function Backoff(attempts: nat, settings: RetrySettings): nat {
    var exponent := if attempts == 0 then 0 else SmallerOf(attempts - 1, 30);
    SmallerOf(SmallerOf(Pow2(exponent) * settings.initialBackoff, I64_MAX), settings.maxBackoff)
  }

  function RetryDelay(attempts: nat, retriable: bool, settings: RetrySettings): Option<nat> {
    if !retriable || attempts >= settings.maxAttempts then None else Some(Backoff(attempts, settings))
  }

  lemma {:induction false} Pow2Grows(a: nat, b: nat)
    requires a <= b
    ensures Pow2(a) <= Pow2(b)
  {
    if a < b {
      Pow2Grows(a, b - 1);
    }
  }

  // Retries end with the attempts, wait longer each time, and never longer than
  // the ceiling.
  lemma BackoffIsBounded(attempts: nat, later: nat, settings: RetrySettings)
    requires attempts <= later
    ensures RetryDelay(later, true, settings).Some? <==> later < settings.maxAttempts
    ensures later < settings.maxAttempts ==>
      RetryDelay(attempts, true, settings).Some?
      && RetryDelay(attempts, true, settings).value <= RetryDelay(later, true, settings).value <= settings.maxBackoff
  {
    var low := if attempts == 0 then 0 else SmallerOf(attempts - 1, 30);
    var high := if later == 0 then 0 else SmallerOf(later - 1, 30);
    Pow2Grows(low, high);
    ProductGrows(Pow2(low), Pow2(high), settings.initialBackoff);
  }

  lemma ProductGrows(a: nat, b: nat, c: nat)
    requires a <= b
    ensures a * c <= b * c
  {
  }
}
