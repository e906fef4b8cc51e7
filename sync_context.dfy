/** The React provider around the engine (`SyncContext.tsx`): the state it
    shows to the app, enabling and disabling sync, manual and triggered
    syncs, and the one-slot conflict prompt. React state setters become
    field updates; the Google sign-in popup, the revoke call and the file
    deletion are given as their outcomes. */
module Provider {
  import opened Wrappers
  import opened SyncTypes
  import opened DriveService
  import opened Engine

  /** `refreshStatus`'s choice of status: a running round first, then a
      recorded error, then being offline. */
  function DeriveStatus(isSyncing: bool, hasError: bool, online: bool): (r: SyncStatus)
    ensures r == Syncing <==> isSyncing
    ensures r == ErrorStatus <==> !isSyncing && hasError
    ensures r == Offline <==> !isSyncing && !hasError && !online
    ensures r == Idle <==> !isSyncing && !hasError && online
  {
    if isSyncing then Syncing
    else if hasError then ErrorStatus
    else if !online then Offline
    else Idle
  }

  const NotEnabledMessage := "Sync not enabled or not authenticated"

  /** The provider's view of the state that `refreshStatus` computes from
      the engine and the stored configuration. */
  datatype View = View(
    syncEnabled: bool, status: SyncStatus, lastSyncTime: Option<int>,
    isAuthenticated: bool, pendingSyncCount: nat, lastError: Option<string>)

  function Refreshed(s: EngineState, online: bool, now: int): (v: View)
    ensures v.status == DeriveStatus(s.syncInProgress, s.config.lastError.Some?, online)
    ensures v.isAuthenticated == HasValidToken(s.config, now)
    ensures v.pendingSyncCount == |s.config.pendingSyncOperations|
  {
    var st := StatusOf(s);
    View(s.config.enabled, DeriveStatus(st.isSyncing, st.hasError, online), s.config.lastSyncTime,
         HasValidToken(s.config, now), st.pendingOperations, st.lastError)
  }

  /** The view after sync is disabled. */
  const DisabledView := View(false, Idle, None, false, 0, None)

  /** Online, a disabled, fully cleared configuration shows as disabled,
      idle and error-free, as long as no round is still marked in
      progress. */
  lemma ClearedConfigRefreshesToDisabled(s: EngineState, online: bool, now: int)
    requires s.config == ClearedConfig && !s.syncInProgress && online
    ensures Refreshed(s, online, now) == DisabledView
  {
  }

  /** `disableSync` was asked to delete the remote file and one is stored. */
  predicate DeletesRemote(config: SyncConfig, deleteRemote: bool) {
    deleteRemote && Truthy(config.driveFileId)
  }

  /** The deletion of the remote file was attempted and failed. */
  predicate DeleteFails(config: SyncConfig, deleteRemote: bool, now: int, deleted: Call<()>) {
    DeletesRemote(config, deleteRemote) && DriveCall(config, now, deleted).Fail?
  }

  /** The configuration once the optional deletion has succeeded. */
  function AfterDelete(config: SyncConfig, deleteRemote: bool, now: int, deleted: Call<()>): SyncConfig {
    if DeletesRemote(config, deleteRemote) then DeleteAppDataFile(config, now, deleted).1 else config
  }

  class SyncProvider {
    var syncEnabled: bool
    var status: SyncStatus
    var lastSyncTime: Option<int>
    var isAuthenticated: bool
    var pendingSyncCount: nat
    var lastError: Option<string>
    /** The conflict shown to the user, and whether a resolver waits. */
    var pendingConflict: Option<ConflictInfo>
    var resolverSet: bool
    /** The answers handed to waiting conflict prompts, in order. */
    var delivered: seq<Choice>
    const engine: SyncEngine

    function ViewOf(): View
      reads this
    {
      View(syncEnabled, status, lastSyncTime, isAuthenticated, pendingSyncCount, lastError)
    }

    constructor(engine: SyncEngine)
      ensures ViewOf() == View(false, Idle, None, false, 0, None)
      ensures pendingConflict.None? && !resolverSet && delivered == []
      ensures this.engine == engine
    {
      syncEnabled := false;
      status := Idle;
      lastSyncTime := None;
      isAuthenticated := false;
      pendingSyncCount := 0;
      lastError := None;
      pendingConflict := None;
      resolverSet := false;
      delivered := [];
      this.engine := engine;
    }

    method RefreshStatus(online: bool, now: int)
      modifies this
      ensures ViewOf() == Refreshed(engine.State(), online, now)
      ensures pendingConflict == old(pendingConflict) && resolverSet == old(resolverSet)
      ensures delivered == old(delivered)
    {
      var status := engine.GetSyncStatus();
      syncEnabled := engine.config.enabled;
      isAuthenticated := HasValidToken(engine.config, now);
      lastSyncTime := engine.config.lastSyncTime;
      pendingSyncCount := status.pendingOperations;
      lastError := status.lastError;
      this.status := DeriveStatus(status.isSyncing, status.hasError, online);
    }

    /** `enableSync`: sign in, then run the load-time sync and refresh.
        Only a failed sign-in reaches the error path, which turns sync off
        again and shows the error. */
    method EnableSync(clientId: string, servicesLoaded: bool, response: TokenResponse,
                      online: bool, env: RoundEnv) returns (r: Result<(), string>)
      modifies this, engine
      ensures var (signIn, config') := InitiateOAuth(old(engine.config), clientId, servicesLoaded, response, env.now);
        && (r.Failure? <==> signIn.Failure?)
        && (r.Failure? ==>
              && r.error == signIn.error
              && engine.State() == old(engine.State()).(config := old(engine.config).(enabled := false))
              && ViewOf() == old(ViewOf()).(status := ErrorStatus, lastError := Some(signIn.error), syncEnabled := false))
        && (r.Success? ==>
              && engine.State() == CheckOnLoad(old(engine.State()).(config := config'), env)
              && ViewOf() == Refreshed(engine.State(), online, env.now))
      ensures pendingConflict == old(pendingConflict) && resolverSet == old(resolverSet)
      ensures delivered == old(delivered)
    {
      status := Syncing;
      var (signIn, config') := InitiateOAuth(engine.config, clientId, servicesLoaded, response, env.now);
      engine.config := config';
      if signIn.Failure? {
        status := ErrorStatus;
        lastError := Some(signIn.error);
        engine.config := engine.config.(enabled := false);
        syncEnabled := false;
        return Failure(signIn.error);
      }
      SyncAndRefresh(online, env);
      r := Success(());
    }

    /** The end of a successful `enableSync`: the load-time round, then a
        refresh of the view. */
    method SyncAndRefresh(online: bool, env: RoundEnv)
      modifies this, engine
      ensures engine.State() == CheckOnLoad(old(engine.State()), env)
      ensures ViewOf() == Refreshed(engine.State(), online, env.now)
      ensures pendingConflict == old(pendingConflict) && resolverSet == old(resolverSet)
      ensures delivered == old(delivered)
    {
      engine.CheckAndSyncOnLoad(env);
      RefreshStatus(online, env.now);
    }

    /** `disableSync`: delete the remote file only when asked and a file id
        is stored, revoke the token, clear the configuration and stop the
        engine. A failing step stops there and passes its error on: a
        failed revoke leaves the remote file deleted and its id cleared. */
    method DisableSync(deleteRemote: bool, now: int, deleted: Call<()>, servicesLoaded: bool)
      returns (r: Result<(), string>)
      modifies this, engine
      ensures DeleteFails(old(engine.config), deleteRemote, now, deleted) ==>
        && r == Failure(DriveCall(old(engine.config), now, deleted).message)
        && engine.State() == old(engine.State()) && ViewOf() == old(ViewOf())
      ensures r.Failure? && !DeleteFails(old(engine.config), deleteRemote, now, deleted) ==>
        var afterDelete := AfterDelete(old(engine.config), deleteRemote, now, deleted);
        && r == Failure(RevokeNotLoadedMessage)
        && Truthy(afterDelete.googleAccessToken) && !servicesLoaded
        && engine.State() == old(engine.State()).(config := afterDelete)
        && ViewOf() == old(ViewOf())
      ensures r.Success? <==>
        && !DeleteFails(old(engine.config), deleteRemote, now, deleted)
        && RevokeToken(AfterDelete(old(engine.config), deleteRemote, now, deleted), servicesLoaded).0.Success?
      ensures r.Success? ==>
        && engine.State() == CleanupSpec(old(engine.State()).(config := ClearedConfig))
        && ViewOf() == DisabledView
      ensures pendingConflict == old(pendingConflict) && resolverSet == old(resolverSet)
      ensures delivered == old(delivered)
    {
      var d := DeleteRemoteFile(deleteRemote, now, deleted);
      if d.Failure? {
        return d;
      }
      ghost var afterDelete := engine.config;
      var (revoked, config'') := RevokeToken(engine.config, servicesLoaded);
      if revoked.Failure? {
        assert config'' == afterDelete && revoked.error == RevokeNotLoadedMessage;
        return Failure(revoked.error);
      }
      engine.config := config'';
      engine.config := ClearedConfig;
      engine.Cleanup();
      syncEnabled := false;
      isAuthenticated := false;
      lastSyncTime := None;
      pendingSyncCount := 0;
      lastError := None;
      status := Idle;
      r := Success(());
    }

    /** The first step of `disableSync`: the optional deletion of the
        remote file. */
    method DeleteRemoteFile(deleteRemote: bool, now: int, deleted: Call<()>) returns (r: Result<(), string>)
      modifies engine
      ensures DeleteFails(old(engine.config), deleteRemote, now, deleted) ==>
        r == Failure(DriveCall(old(engine.config), now, deleted).message) && engine.State() == old(engine.State())
      ensures !DeleteFails(old(engine.config), deleteRemote, now, deleted) ==>
        r.Success? && engine.State() == old(engine.State()).(config := AfterDelete(old(engine.config), deleteRemote, now, deleted))
    {
      r := Success(());
      if DeletesRemote(engine.config, deleteRemote) {
        var (d, config') := DeleteAppDataFile(engine.config, now, deleted);
        if d.Fail? {
          return Failure(d.message);
        }
        engine.config := config';
      }
    }

    /** `manualSync`: refused unless the shown state is enabled and
        authenticated; otherwise the engine's manual sync, whose round
        result is discarded, then a refresh. */
    method ManualSync(online: bool, opId: string, env: RoundEnv) returns (r: Result<(), string>)
      modifies this, engine
      ensures !old(syncEnabled) || !old(isAuthenticated) ==>
        r == Failure(NotEnabledMessage) && engine.State() == old(engine.State()) && ViewOf() == old(ViewOf())
      ensures old(syncEnabled) && old(isAuthenticated) ==>
        var (t, _) := ManualSyncSpec(old(engine.State()), online, opId, env);
        && r == Success(()) && engine.State() == t
        && ViewOf() == Refreshed(t, online, env.now)
      ensures pendingConflict == old(pendingConflict) && resolverSet == old(resolverSet)
      ensures delivered == old(delivered)
    {
      if !syncEnabled || !isAuthenticated {
        return Failure(NotEnabledMessage);
      }
      status := Syncing;
      var _ := engine.ManualSync(online, opId, env);
      RefreshStatus(online, env.now);
      r := Success(());
    }

    /** `triggerSync`: queue a request when the shown state is enabled and
        authenticated, then refresh. */
    method TriggerSync(reason: SyncReason, opId: string, online: bool, now: int)
      modifies this, engine
      ensures !old(syncEnabled) || !old(isAuthenticated) ==>
        engine.State() == old(engine.State()) && ViewOf() == old(ViewOf())
      ensures old(syncEnabled) && old(isAuthenticated) ==>
        && engine.State() == Enqueue(old(engine.State()), reason, opId, now)
        && ViewOf() == Refreshed(engine.State(), online, now)
      ensures pendingConflict == old(pendingConflict) && resolverSet == old(resolverSet)
      ensures delivered == old(delivered)
    {
      if !syncEnabled || !isAuthenticated {
        return;
      }
      engine.QueueSyncOperation(reason, opId, now);
      RefreshStatus(online, now);
    }

    /** The engine's conflict callback: show the conflict and install a
        resolver, replacing any earlier one. */
    method OnConflict(conflict: ConflictInfo)
      modifies this
      ensures pendingConflict == Some(conflict) && resolverSet
      ensures delivered == old(delivered) && ViewOf() == old(ViewOf())
    {
      pendingConflict := Some(conflict);
      resolverSet := true;
    }

    /** `resolveConflict`: with a resolver, hand it the choice and empty
        both slots; without one, do nothing. */
    method ResolveConflict(choice: Choice)
      modifies this
      ensures old(resolverSet) ==> delivered == old(delivered) + [choice]
      ensures old(resolverSet) ==> pendingConflict.None? && !resolverSet
      ensures !old(resolverSet) ==>
        delivered == old(delivered) && pendingConflict == old(pendingConflict) && !resolverSet
      ensures ViewOf() == old(ViewOf())
    {
      if resolverSet {
        delivered := delivered + [choice];
        pendingConflict := None;
        resolverSet := false;
      }
    }

    /** The 'online' event: refresh, then process the queue if the state
        shown before the refresh was enabled with pending requests. */
    method OnOnline(now: int) returns (started: bool)
      modifies this, engine
      ensures ViewOf() == Refreshed(old(engine.State()), true, now)
      ensures old(syncEnabled) && old(pendingSyncCount) > 0 ==>
        engine.State() == Process(old(engine.State()), true, now)
        && (started <==> QueueGuard(old(engine.State()), true, now) == Begin)
      ensures !(old(syncEnabled) && old(pendingSyncCount) > 0) ==>
        engine.State() == old(engine.State()) && !started
      ensures pendingConflict == old(pendingConflict) && resolverSet == old(resolverSet)
      ensures delivered == old(delivered)
    {
      var wasEnabled := syncEnabled;
      var wasPending := pendingSyncCount;
      RefreshStatus(true, now);
      started := false;
      if wasEnabled && wasPending > 0 {
        started := engine.ProcessSyncQueue(true, now);
      }
    }

    /** The 'offline' event. */
    method OnOffline()
      modifies this
      ensures ViewOf() == old(ViewOf()).(status := Offline)
      ensures pendingConflict == old(pendingConflict) && resolverSet == old(resolverSet)
      ensures delivered == old(delivered)
    {
      status := Offline;
    }

    /** Mounting: install the conflict callback, refresh, run the load-time
        sync when enabled with a valid token, and refresh again. */
    method Mount(online: bool, env: RoundEnv)
      modifies this, engine
      ensures var s := old(engine.State()).(hasCallback := true);
        && engine.State() == (if s.config.enabled && HasValidToken(s.config, env.now) then CheckOnLoad(s, env) else s)
        && ViewOf() == Refreshed(engine.State(), online, env.now)
      ensures pendingConflict == old(pendingConflict) && resolverSet == old(resolverSet)
      ensures delivered == old(delivered)
    {
      engine.SetConflictResolutionCallback();
      RefreshStatus(online, env.now);
      if engine.config.enabled && HasValidToken(engine.config, env.now) {
        engine.CheckAndSyncOnLoad(env);
        RefreshStatus(online, env.now);
      }
    }

    /** Unmounting removes the conflict callback. */
    method Unmount()
      modifies engine
      ensures engine.State() == old(engine.State()).(hasCallback := false)
    {
      engine.ClearConflictResolutionCallback();
    }
  }
}
