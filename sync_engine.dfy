/** The sync engine (`SyncEngine.ts`): a persisted queue of sync requests,
    one debounce timer, connectivity polling, and sync rounds that decide
    between upload and download by last-write-wins or by asking the user.

    Remote calls are given as their outcomes (`RoundEnv`); timers are
    flags and lists of pending delays whose firing is a method call; the
    clock and `navigator.onLine` are parameters. */
module Engine {
  import opened Wrappers
  import opened Domain
  import opened SyncTypes
  import opened DriveService

  /** The user's answer to a conflict prompt. */
  datatype Choice = KeepLocal | KeepRemote | Cancel

  /** What the engine hands to the conflict prompt. */
  datatype ConflictInfo = ConflictInfo(
    localTimestamp: int, remoteTimestamp: int, fileId: string,
    localData: Payload, remoteData: Payload)

  /** The outcomes of the remote steps one sync round may take: search
      for the file, create it, read its modification time, download it,
      upload to it, and the answer of the conflict prompt. `now` is the
      clock during the round. */
  datatype RoundEnv = RoundEnv(
    find: Call<Option<string>>,
    create: Call<string>,
    metadata: Call<int>,
    download: Call<Payload>,
    upload: Call<()>,
    choice: Call<Choice>,
    now: int)

  /** A round's result, the configuration and local data it leaves, and
      the local data it uploaded, if any. */
  datatype Outcome = Outcome(result: SyncResult, config: SyncConfig, local: Payload, uploaded: Option<Payload>)

  /** Clock drift tolerated between the two timestamps. */
  const Tolerance := 1000

  function Abs(x: int): nat {
    if x < 0 then -x else x
  }

  function Failed(config: SyncConfig, local: Payload, now: int, e: string): Outcome {
    Outcome(SyncResult(false, NoTransfer, now, Some(e), None), config, local, None)
  }

  function Succeeded(d: Direction, t: Option<ResolutionType>, config: SyncConfig, local: Payload,
                     uploaded: Option<Payload>, now: int): Outcome {
    Outcome(SyncResult(true, d, now, None, t), config, local, uploaded)
  }

  /** Uploads the local data to the existing file. */
  function UploadLocal(config: SyncConfig, local: Payload, t: ResolutionType, env: RoundEnv): Outcome {
    match DriveCall(config, env.now, env.upload)
    case Fail(e) => Failed(config, local, env.now, e)
    case Ok(_) => Succeeded(Upload, Some(t), config, local, Some(local), env.now)
  }

  /** Replaces the local data by the remote copy and takes over the remote
      modification time as the last local change. */
  function DownloadRemote(config: SyncConfig, local: Payload, remoteTime: int, t: ResolutionType,
                          env: RoundEnv): Outcome {
    match DriveCall(config, env.now, env.download)
    case Fail(e) => Failed(config, local, env.now, e)
    case Ok(remote) =>
      Succeeded(Download, Some(t), config.(lastLocalChangeTime := remoteTime), remote, None, env.now)
  }

  /** `resolveConflict`: equal timestamps (within the tolerance) transfer
      nothing; a registered callback lets the user choose; otherwise the
      newer side wins. */
  function Resolve(config: SyncConfig, local: Payload, hasCallback: bool, remoteTime: int,
                   env: RoundEnv): Outcome {
    var localTime := config.lastLocalChangeTime;
    if Abs(localTime - remoteTime) < Tolerance then
      Succeeded(NoTransfer, Some(Same), config, local, None, env.now)
    else if hasCallback then
      match DriveCall(config, env.now, env.download)
      case Fail(e) => Failed(config, local, env.now, e)
      case Ok(remote) =>
        match env.choice
        case Fail(e) => Failed(config, local, env.now, e)
        case Ok(Cancel) => Succeeded(NoTransfer, Some(Cancelled), config, local, None, env.now)
        case Ok(KeepLocal) => UploadLocal(config, local, ManualChoice, env)
        case Ok(KeepRemote) =>
          Succeeded(Download, Some(ManualChoice), config.(lastLocalChangeTime := remoteTime), remote, None, env.now)
    else if localTime > remoteTime then UploadLocal(config, local, LocalNewer, env)
    else DownloadRemote(config, local, remoteTime, RemoteNewer, env)
  }

  /** The file id a round works on: the stored one, or the result of a
      search. */
  function FileLookup(config: SyncConfig, env: RoundEnv): Call<Option<string>> {
    if Truthy(config.driveFileId) then Ok(config.driveFileId) else DriveCall(config, env.now, env.find)
  }

  /** `performSync`: one sync round. Without a remote file the local data
      is uploaded to a new one; otherwise the modification times decide.
      Any failing step turns into an unsuccessful result. */
  function PerformSync(config: SyncConfig, local: Payload, hasCallback: bool, env: RoundEnv): (r: Outcome)
    ensures r.result.timestamp == env.now
    ensures !r.result.success ==>
      && r.config == config && r.local == local && r.uploaded.None?
      && r.result.direction == NoTransfer && r.result.error.Some? && r.result.conflictResolution.None?
    ensures r.result.success ==> r.result.error.None? && HasValidToken(config, env.now)
    ensures r.config.(driveFileId := config.driveFileId, lastLocalChangeTime := config.lastLocalChangeTime) == config
    ensures r.uploaded.Some? <==> r.result.success && r.result.direction == Upload
    ensures r.uploaded.Some? ==> r.uploaded.value == local
    ensures r.result.direction == Download ==>
      && env.download.Ok? && r.local == env.download.value
      && env.metadata.Ok? && r.config.lastLocalChangeTime == env.metadata.value
    ensures r.result.direction != Download ==>
      r.local == local && r.config.lastLocalChangeTime == config.lastLocalChangeTime
    ensures r.config.driveFileId != config.driveFileId ==>
      env.create.Ok? && r.config.driveFileId == Some(env.create.value) && r.result.direction == Upload
  {
    match FileLookup(config, env)
    case Fail(e) => Failed(config, local, env.now, e)
    case Ok(found) =>
      if !Truthy(found) then
        var (created, config') := CreateAppDataFile(config, env.now, env.create);
        if created.Fail? then Failed(config, local, env.now, created.message)
        else Succeeded(Upload, None, config', local, Some(local), env.now)
      else
        match DriveCall(config, env.now, env.metadata)
        case Fail(e) => Failed(config, local, env.now, e)
        case Ok(remoteTime) => Resolve(config, local, hasCallback, remoteTime, env)
  }

  /** The round reaches the timestamp comparison: it has a file id and
      read the remote modification time. */
  predicate ReachesComparison(config: SyncConfig, env: RoundEnv) {
    && FileLookup(config, env).Ok? && Truthy(FileLookup(config, env).value)
    && HasValidToken(config, env.now) && env.metadata.Ok?
  }

  /** Timestamps within the tolerance transfer nothing, whatever the
      callback, and change nothing. */
  lemma WithinToleranceTransfersNothing(config: SyncConfig, local: Payload, hasCallback: bool, env: RoundEnv)
    requires ReachesComparison(config, env)
    requires Abs(config.lastLocalChangeTime - env.metadata.value) < Tolerance
    ensures PerformSync(config, local, hasCallback, env)
      == Succeeded(NoTransfer, Some(Same), config, local, None, env.now)
  {
  }

  /** With a callback and diverging timestamps the user decides: the
      automatic outcomes never occur, a cancel still counts as a success,
      keep-local uploads and keep-remote imports the download. */
  lemma CallbackDecides(config: SyncConfig, local: Payload, env: RoundEnv)
    requires ReachesComparison(config, env)
    requires Abs(config.lastLocalChangeTime - env.metadata.value) >= Tolerance
    ensures var r := PerformSync(config, local, true, env);
      && (r.result.success ==> r.result.conflictResolution in {Some(ManualChoice), Some(Cancelled)})
      && (r.result.success <==> env.download.Ok? && env.choice.Ok? && (env.choice.value == KeepLocal ==> env.upload.Ok?))
      && (r.result.success && env.choice.value == Cancel ==>
            r.result.direction == NoTransfer && r.config == config && r.local == local)
      && (r.result.success && env.choice.value == KeepLocal ==> r.uploaded == Some(local))
      && (r.result.success && env.choice.value == KeepRemote ==>
            r.local == env.download.value && r.config.lastLocalChangeTime == env.metadata.value)
  {
  }

  /** Without a callback the newer side wins: a newer local copy is
      uploaded, an older one is replaced by the download. */
  lemma LastWriteWins(config: SyncConfig, local: Payload, env: RoundEnv)
    requires ReachesComparison(config, env)
    requires Abs(config.lastLocalChangeTime - env.metadata.value) >= Tolerance
    ensures var r := PerformSync(config, local, false, env);
      && (config.lastLocalChangeTime > env.metadata.value ==>
            && (r.result.success <==> env.upload.Ok?)
            && (r.result.success ==> r.result.conflictResolution == Some(LocalNewer) && r.uploaded == Some(local)))
      && (config.lastLocalChangeTime < env.metadata.value ==>
            && (r.result.success <==> env.download.Ok?)
            && (r.result.success ==>
                  && r.result.conflictResolution == Some(RemoteNewer)
                  && r.local == env.download.value
                  && r.config.lastLocalChangeTime == env.metadata.value))
  {
  }

  /** Without a stored or found file the local data goes to a new file,
      whose id is remembered. */
  lemma MissingFileIsCreated(config: SyncConfig, local: Payload, hasCallback: bool, env: RoundEnv)
    requires FileLookup(config, env).Ok? && !Truthy(FileLookup(config, env).value)
    ensures var r := PerformSync(config, local, hasCallback, env);
      && (r.result.success <==> HasValidToken(config, env.now) && env.create.Ok?)
      && (r.result.success ==>
            && r.result.direction == Upload && r.result.conflictResolution.None?
            && r.uploaded == Some(local)
            && r.config == config.(driveFileId := Some(env.create.value)))
  {
  }

  // ---------------------------------------------------------------------
  // Engine state and its transitions
  // ---------------------------------------------------------------------

  /** A snapshot of the engine's fields. `inFlight` holds, for each round
      begun and not yet finished, the failure count read when it began;
      `retryTimers` the delays of scheduled retries; `uploads` what rounds
      have sent to the remote file. */
  datatype EngineState = EngineState(
    syncInProgress: bool,
    debounceArmed: bool,
    polling: bool,
    hasCallback: bool,
    config: SyncConfig,
    local: Payload,
    inFlight: seq<nat>,
    retryTimers: seq<int>,
    uploads: seq<Payload>)

  /** `queueSyncOperation`: when sync is on, record the change time, append
      a fresh operation and (re)arm the single debounce timer. */
  function Enqueue(s: EngineState, reason: SyncReason, opId: string, now: int): EngineState {
    if !s.config.enabled then s
    else s.(config := s.config.(lastLocalChangeTime := now,
                                pendingSyncOperations := s.config.pendingSyncOperations + [PendingOp(opId, reason, now, 0)]),
            debounceArmed := true)
  }

  lemma EnqueueFacts(s: EngineState, reason: SyncReason, opId: string, now: int)
    ensures var t := Enqueue(s, reason, opId, now);
      && (!s.config.enabled ==> t == s)
      && (s.config.enabled ==>
            && |t.config.pendingSyncOperations| == |s.config.pendingSyncOperations| + 1
            && t.config.pendingSyncOperations[..|s.config.pendingSyncOperations|] == s.config.pendingSyncOperations
            && t.config.pendingSyncOperations[|s.config.pendingSyncOperations|] == PendingOp(opId, reason, now, 0)
            && t.config.lastLocalChangeTime == now
            && t.debounceArmed
            && t.(config := s.config, debounceArmed := s.debounceArmed) == s
            && t.config.(lastLocalChangeTime := s.config.lastLocalChangeTime,
                         pendingSyncOperations := s.config.pendingSyncOperations) == s.config)
  {
    var t := Enqueue(s, reason, opId, now);
    if s.config.enabled {
      assert t.config.pendingSyncOperations[..|s.config.pendingSyncOperations|] == s.config.pendingSyncOperations;
    }
  }

  /** A burst of requests. */
  datatype Request = Request(reason: SyncReason, opId: string, now: int)

  function EnqueueAll(s: EngineState, requests: seq<Request>): EngineState
    decreases |requests|
  {
    if requests == [] then s
    else var last := requests[|requests| - 1];
      Enqueue(EnqueueAll(s, requests[..|requests| - 1]), last.reason, last.opId, last.now)
  }

  /** However many requests a burst holds, it queues one operation each and
      leaves one debounce timer at most: armed exactly when it was armed
      before or the burst reached an enabled engine. */
  lemma {:induction false} BurstArmsOneTimer(s: EngineState, requests: seq<Request>)
    ensures var t := EnqueueAll(s, requests);
      && t.config.enabled == s.config.enabled
      && t.debounceArmed == (s.debounceArmed || (s.config.enabled && |requests| > 0))
      && |t.config.pendingSyncOperations| ==
           |s.config.pendingSyncOperations| + (if s.config.enabled then |requests| else 0)
      && t.(config := s.config, debounceArmed := s.debounceArmed) == s
    decreases |requests|
  {
    if requests != [] {
      BurstArmsOneTimer(s, requests[..|requests| - 1]);
    }
  }

  /** Why `processSyncQueue` stops before starting a round, or `Begin`. */
  datatype Guard = AlreadySyncing | NothingQueued | WentOffline | TokenInvalid | Begin

  function QueueGuard(s: EngineState, online: bool, now: int): Guard {
    if s.syncInProgress then AlreadySyncing
    else if !s.config.enabled || |s.config.pendingSyncOperations| == 0 then NothingQueued
    else if !online then WentOffline
    else if !HasValidToken(s.config, now) then TokenInvalid
    else Begin
  }

  const AuthExpiredMessage := "Authentication expired. Please re-authenticate."

  /** `startConnectivityPolling`: at most one poll runs. */
  function StartPolling(s: EngineState): EngineState {
    s.(polling := true)
  }

  /** `processSyncQueue` up to the start of the round. */
  function Process(s: EngineState, online: bool, now: int): EngineState {
    match QueueGuard(s, online, now)
    case AlreadySyncing => s
    case NothingQueued => s
    case WentOffline => StartPolling(s)
    case TokenInvalid => s.(config := s.config.(lastError := Some(AuthExpiredMessage)))
    case Begin => s.(syncInProgress := true, inFlight := s.inFlight + [s.config.syncFailureCount])
  }

  /** The guards of `processSyncQueue`: nothing happens during a round or
      with nothing queued; offline only starts polling; an invalid token
      only records the error (no polling, no failure count); otherwise a
      round begins, remembering the current failure count. */
  lemma ProcessGuards(s: EngineState, online: bool, now: int)
    ensures var t := Process(s, online, now);
      && (s.syncInProgress || !s.config.enabled || s.config.pendingSyncOperations == [] ==> t == s)
      && (QueueGuard(s, online, now) == WentOffline ==> t == s.(polling := true) && !online)
      && (QueueGuard(s, online, now) == TokenInvalid ==>
            && t == s.(config := s.config.(lastError := Some(AuthExpiredMessage)))
            && t.polling == s.polling && t.config.syncFailureCount == s.config.syncFailureCount)
      && (QueueGuard(s, online, now) == Begin <==>
            !s.syncInProgress && s.config.enabled && s.config.pendingSyncOperations != []
            && online && HasValidToken(s.config, now))
      && (QueueGuard(s, online, now) == Begin ==>
            t.syncInProgress && t.inFlight == s.inFlight + [s.config.syncFailureCount]
            && t.(syncInProgress := s.syncInProgress, inFlight := s.inFlight) == s)
  {
  }

  /** The delay before retrying after the `n`-th consecutive failure. */
  function RetryDelay(n: nat): int {
    var d := 1000 * Pow2(n);
    if d < 60000 then d else 60000
  }

  /** The retry delay doubles up to a cap of one minute, reached at the
      sixth failure. */
  lemma RetryDelayBounds(n: nat)
    ensures 0 < RetryDelay(n) <= 60000
    ensures n <= 5 ==> RetryDelay(n) == 1000 * Pow2(n)
    ensures n >= 6 ==> RetryDelay(n) == 60000
  {
    if n >= 6 {
      Pow2AtLeast(n, 6);
    } else {
      Pow2AtMost(n, 5);
    }
  }

  lemma {:induction false} Pow2AtLeast(n: nat, k: nat)
    requires k <= n
    ensures Pow2(n) >= Pow2(k)
    decreases n
  {
    if n > k {
      Pow2AtLeast(n - 1, k);
    }
  }

  lemma {:induction false} Pow2AtMost(n: nat, k: nat)
    requires n <= k
    ensures Pow2(n) <= Pow2(k)
    decreases k
  {
    if n < k {
      Pow2AtMost(n, k - 1);
    }
  }

  /** The error recorded for a failed round. */
  function ErrorText(e: Option<string>): string {
    if Truthy(e) then e.value else "Unknown sync error"
  }

  /** The bookkeeping after a round: a success empties the whole queue and
      clears the failure state; a failure counts one more than the count
      read when the round began and records the error. */
  function AfterRound(o: Outcome, base: nat, now: int): SyncConfig {
    if o.result.success then
      o.config.(pendingSyncOperations := [], syncFailureCount := 0, lastError := None, lastSyncTime := Some(now))
    else
      o.config.(syncFailureCount := base + 1, lastError := Some(ErrorText(o.result.error)))
  }

  function Remove<T>(s: seq<T>, k: nat): seq<T>
    requires k < |s|
  {
    s[..k] + s[k + 1..]
  }

  /** The end of round `k` of those in flight (the rest of
      `processSyncQueue`). */
  function Complete(s: EngineState, k: nat, env: RoundEnv): EngineState
    requires k < |s.inFlight|
  {
    var o := PerformSync(s.config, s.local, s.hasCallback, env);
    var base := s.inFlight[k];
    s.(syncInProgress := false,
       config := AfterRound(o, base, env.now),
       local := o.local,
       inFlight := Remove(s.inFlight, k),
       retryTimers := s.retryTimers + (if o.result.success then [] else [RetryDelay(base + 1)]),
       uploads := s.uploads + (if o.uploaded.Some? then [o.uploaded.value] else []))
  }

  /** Every round ends with no round marked in progress; a success leaves
      an empty queue, no failures, no error and a sync time; a failure
      keeps the queue, counts one more failure than when the round began,
      records a non-empty error and schedules one retry. */
  lemma CompleteFacts(s: EngineState, k: nat, env: RoundEnv)
    requires k < |s.inFlight|
    ensures var t := Complete(s, k, env);
      var o := PerformSync(s.config, s.local, s.hasCallback, env);
      && !t.syncInProgress
      && |t.inFlight| == |s.inFlight| - 1
      && (o.result.success ==>
            && t.config.pendingSyncOperations == [] && t.config.syncFailureCount == 0
            && t.config.lastError.None? && t.config.lastSyncTime == Some(env.now)
            && t.retryTimers == s.retryTimers)
      && (!o.result.success ==>
            && t.config.pendingSyncOperations == s.config.pendingSyncOperations
            && t.config.syncFailureCount == s.inFlight[k] + 1
            && t.config.lastError.Some? && t.config.lastError.value != ""
            && t.local == s.local && t.uploads == s.uploads
            && t.retryTimers == s.retryTimers + [RetryDelay(s.inFlight[k] + 1)]
            && RetryDelay(s.inFlight[k] + 1) <= 60000)
  {
    RetryDelayBounds(s.inFlight[k] + 1);
  }

  /** As written, a cancelled conflict prompt still counts as a successful
      round: the queue is emptied and a sync time recorded although nothing
      was transferred. */
  lemma CancelEmptiesQueue(s: EngineState, k: nat, env: RoundEnv)
    requires k < |s.inFlight| && s.hasCallback
    requires ReachesComparison(s.config, env)
    requires Abs(s.config.lastLocalChangeTime - env.metadata.value) >= Tolerance
    requires env.download.Ok? && env.choice == Ok(Cancel)
    ensures var t := Complete(s, k, env);
      && t.config.pendingSyncOperations == [] && t.config.lastSyncTime == Some(env.now)
      && t.local == s.local && t.uploads == s.uploads
  {
  }

  /** `checkAndSyncOnLoad`: one round when sync is on and the token valid,
      without the queue bookkeeping of `processSyncQueue`. */
  function CheckOnLoad(s: EngineState, env: RoundEnv): EngineState {
    if !s.config.enabled || !HasValidToken(s.config, env.now) then s
    else
      var o := PerformSync(s.config, s.local, s.hasCallback, env);
      s.(config := o.config, local := o.local,
         uploads := s.uploads + (if o.uploaded.Some? then [o.uploaded.value] else []))
  }

  /** The load-time round leaves the queue, the failure count, the error
      and the sync time as they were, whatever its result. */
  lemma CheckOnLoadKeepsBookkeeping(s: EngineState, env: RoundEnv)
    ensures var t := CheckOnLoad(s, env);
      && t.config.pendingSyncOperations == s.config.pendingSyncOperations
      && t.config.syncFailureCount == s.config.syncFailureCount
      && t.config.lastError == s.config.lastError
      && t.config.lastSyncTime == s.config.lastSyncTime
      && t.syncInProgress == s.syncInProgress
  {
  }

  /** `onConnectivityRestored`: a metadata request (when a file id is
      stored) confirms the connection; then polling stops and the queue is
      processed. A failed probe changes nothing. */
  function ConnectivityRestored(s: EngineState, online: bool, now: int, probe: Call<int>): EngineState {
    if Truthy(s.config.driveFileId) && DriveCall(s.config, now, probe).Fail? then s
    else Process(s.(polling := false), online, now)
  }

  /** One tick of the polling interval. */
  function PollTick(s: EngineState, online: bool, now: int, probe: Call<int>): EngineState {
    if s.polling && online && HasValidToken(s.config, now) then ConnectivityRestored(s, online, now, probe)
    else s
  }

  /** A tick offline, with an invalid token or without polling changes
      nothing; a successful tick stops polling. */
  lemma PollTickFacts(s: EngineState, online: bool, now: int, probe: Call<int>)
    ensures !s.polling || !online || !HasValidToken(s.config, now) ==> PollTick(s, online, now, probe) == s
    ensures s.polling && online && HasValidToken(s.config, now) && (!Truthy(s.config.driveFileId) || probe.Ok?) ==>
      !PollTick(s, online, now, probe).polling
  {
  }

  const AlreadyInProgressMessage := "Sync already in progress"

  /** `manualSync`: refused while a round runs; otherwise queue a manual
      request and process the queue, awaiting the round. Success is read
      off whether any sync time is recorded. */
  function ManualSyncSpec(s: EngineState, online: bool, opId: string, env: RoundEnv): (EngineState, SyncResult) {
    if s.syncInProgress then
      (s, SyncResult(false, NoTransfer, env.now, Some(AlreadyInProgressMessage), None))
    else
      var s1 := Enqueue(s, ManualReason, opId, env.now);
      var s2 := Process(s1, online, env.now);
      var s3 := if QueueGuard(s1, online, env.now) == Begin then Complete(s2, |s2.inFlight| - 1, env) else s2;
      (s3, SyncResult(s3.config.lastSyncTime.Some?, NoTransfer, env.now, None, None))
  }

  /** A manual sync during a round changes nothing and reports the
      refusal; otherwise the reported success is whether a sync time
      exists afterwards, so offline, with an earlier sync on record, it
      reports success although no round ran. */
  lemma ManualSyncFacts(s: EngineState, online: bool, opId: string, env: RoundEnv)
    ensures var (t, r) := ManualSyncSpec(s, online, opId, env);
      && (s.syncInProgress ==> t == s && !r.success && r.error == Some(AlreadyInProgressMessage))
      && (!s.syncInProgress ==> r.success == t.config.lastSyncTime.Some? && r.error.None?)
      && (!s.syncInProgress && !online && s.config.enabled && s.config.lastSyncTime.Some? ==>
            r.success && t.polling && t.inFlight == s.inFlight
            && |t.config.pendingSyncOperations| == |s.config.pendingSyncOperations| + 1)
  {
  }

  /** `cleanup`: stop polling, drop the debounce timer and forget any
      round in progress (rounds already started still finish). */
  function CleanupSpec(s: EngineState): EngineState {
    s.(polling := false, debounceArmed := false, syncInProgress := false)
  }

  /** What `getSyncStatus` reports. */
  datatype EngineStatus = EngineStatus(
    isSyncing: bool, hasError: bool, lastError: Option<string>,
    lastSyncTime: Option<int>, pendingOperations: nat)

  function StatusOf(s: EngineState): (r: EngineStatus)
    ensures r.hasError <==> r.lastError.Some?
    ensures r.pendingOperations == 0 <==> s.config.pendingSyncOperations == []
  {
    EngineStatus(s.syncInProgress, s.config.lastError.Some?, s.config.lastError,
                 s.config.lastSyncTime, |s.config.pendingSyncOperations|)
  }

  // ---------------------------------------------------------------------
  // The engine object
  // ---------------------------------------------------------------------

  class SyncEngine {
    var syncInProgress: bool
    var debounceArmed: bool
    var polling: bool
    var hasCallback: bool
    /** The persisted sync configuration. */
    var config: SyncConfig
    /** The app's words, progress and synced settings as stored locally. */
    var local: Payload
    var inFlight: seq<nat>
    var retryTimers: seq<int>
    var uploads: seq<Payload>

    function State(): EngineState
      reads this
    {
      EngineState(syncInProgress, debounceArmed, polling, hasCallback, config, local,
                  inFlight, retryTimers, uploads)
    }

    constructor(config: SyncConfig, local: Payload)
      ensures State() == EngineState(false, false, false, false, config, local, [], [], [])
    {
      syncInProgress := false;
      debounceArmed := false;
      polling := false;
      hasCallback := false;
      this.config := config;
      this.local := local;
      inFlight := [];
      retryTimers := [];
      uploads := [];
    }

    method SetConflictResolutionCallback()
      modifies this
      ensures State() == old(State()).(hasCallback := true)
    {
      hasCallback := true;
    }

    method ClearConflictResolutionCallback()
      modifies this
      ensures State() == old(State()).(hasCallback := false)
    {
      hasCallback := false;
    }

    method QueueSyncOperation(reason: SyncReason, opId: string, now: int)
      modifies this
      ensures State() == Enqueue(old(State()), reason, opId, now)
    {
      if !config.enabled {
        return;
      }
      config := config.(lastLocalChangeTime := now);
      config := config.(pendingSyncOperations := config.pendingSyncOperations + [PendingOp(opId, reason, now, 0)]);
      debounceArmed := true;
    }

    method StartConnectivityPolling()
      modifies this
      ensures State() == StartPolling(old(State()))
    {
      if polling {
        return;
      }
      polling := true;
    }

    method StopConnectivityPolling()
      modifies this
      ensures State() == old(State()).(polling := false)
    {
      if polling {
        polling := false;
      }
    }

    /** Returns whether a round began; the round ends with
        `CompleteRound`. */
    method ProcessSyncQueue(online: bool, now: int) returns (started: bool)
      modifies this
      ensures State() == Process(old(State()), online, now)
      ensures started <==> QueueGuard(old(State()), online, now) == Begin
    {
      started := false;
      if syncInProgress {
        return;
      }
      if !config.enabled || |config.pendingSyncOperations| == 0 {
        return;
      }
      if !online {
        StartConnectivityPolling();
        return;
      }
      if !HasValidToken(config, now) {
        config := config.(lastError := Some(AuthExpiredMessage));
        return;
      }
      syncInProgress := true;
      inFlight := inFlight + [config.syncFailureCount];
      started := true;
    }

    method CompleteRound(k: nat, env: RoundEnv)
      requires k < |inFlight|
      modifies this
      ensures State() == Complete(old(State()), k, env)
    {
      var base := inFlight[k];
      var o := PerformSync(config, local, hasCallback, env);
      local := o.local;
      if o.uploaded.Some? {
        uploads := uploads + [o.uploaded.value];
      }
      if o.result.success {
        config := o.config.(pendingSyncOperations := []);
        config := config.(syncFailureCount := 0, lastError := None, lastSyncTime := Some(env.now));
      } else {
        var failureCount := base + 1;
        config := o.config.(syncFailureCount := failureCount, lastError := Some(ErrorText(o.result.error)));
        retryTimers := retryTimers + [RetryDelay(failureCount)];
      }
      inFlight := inFlight[..k] + inFlight[k + 1..];
      syncInProgress := false;
    }

    /** The debounce timer fires. */
    method DebounceFires(online: bool, now: int) returns (started: bool)
      requires debounceArmed
      modifies this
      ensures State() == Process(old(State()).(debounceArmed := false), online, now)
      ensures started <==> QueueGuard(old(State()), online, now) == Begin
    {
      debounceArmed := false;
      started := ProcessSyncQueue(online, now);
    }

    /** Retry timer `i` fires. */
    method RetryFires(i: nat, online: bool, now: int) returns (started: bool)
      requires i < |retryTimers|
      modifies this
      ensures State() == Process(old(State()).(retryTimers := Remove(old(retryTimers), i)), online, now)
      ensures started <==> QueueGuard(old(State()), online, now) == Begin
    {
      retryTimers := retryTimers[..i] + retryTimers[i + 1..];
      started := ProcessSyncQueue(online, now);
    }

    method CheckAndSyncOnLoad(env: RoundEnv)
      modifies this
      ensures State() == CheckOnLoad(old(State()), env)
    {
      if !config.enabled || !HasValidToken(config, env.now) {
        return;
      }
      var o := PerformSync(config, local, hasCallback, env);
      config := o.config;
      local := o.local;
      if o.uploaded.Some? {
        uploads := uploads + [o.uploaded.value];
      }
    }

    method PollIntervalTick(online: bool, now: int, probe: Call<int>)
      modifies this
      ensures State() == PollTick(old(State()), online, now, probe)
    {
      if polling && online && HasValidToken(config, now) {
        if Truthy(config.driveFileId) && DriveCall(config, now, probe).Fail? {
          return;
        }
        StopConnectivityPolling();
        var _ := ProcessSyncQueue(online, now);
      }
    }

    method ManualSync(online: bool, opId: string, env: RoundEnv) returns (result: SyncResult)
      modifies this
      ensures (State(), result) == ManualSyncSpec(old(State()), online, opId, env)
    {
      if syncInProgress {
        return SyncResult(false, NoTransfer, env.now, Some(AlreadyInProgressMessage), None);
      }
      QueueSyncOperation(ManualReason, opId, env.now);
      var started := ProcessSyncQueue(online, env.now);
      if started {
        CompleteRound(|inFlight| - 1, env);
      }
      result := SyncResult(config.lastSyncTime.Some?, NoTransfer, env.now, None, None);
    }

    function GetSyncStatus(): (r: EngineStatus)
      reads this
      ensures r == StatusOf(State())
      ensures r.isSyncing == syncInProgress
    {
      StatusOf(State())
    }

    method Cleanup()
      modifies this
      ensures State() == CleanupSpec(old(State()))
    {
      StopConnectivityPolling();
      if debounceArmed {
        debounceArmed := false;
      }
      syncInProgress := false;
    }
  }
}
