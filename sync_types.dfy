/** The records the sync layer shares (`types/sync.ts`): the persisted sync
    configuration, queued operations, the result of a sync, and the outcome
    of one remote call. */
module SyncTypes {
  import opened Wrappers

  datatype SyncReason = WordChange | SettingsChange | ProgressChange | AppLoad | ManualReason

  /** One queued request to sync. */
  datatype PendingOp = PendingOp(id: string, reason: SyncReason, timestamp: int, retryCount: int)

  /** The sync configuration kept in local storage. `null` is `None`;
      times are milliseconds since the epoch. */
  datatype SyncConfig = SyncConfig(
    enabled: bool,
    googleAccessToken: Option<string>,
    googleTokenExpiry: Option<int>,
    googleRefreshToken: Option<string>,
    driveFileId: Option<string>,
    lastSyncTime: Option<int>,
    lastLocalChangeTime: int,
    pendingSyncOperations: seq<PendingOp>,
    syncFailureCount: nat,
    lastError: Option<string>)

  /** The configuration left by clearing it: nothing enabled, stored or
      queued. */
  const ClearedConfig := SyncConfig(false, None, None, None, None, None, 0, [], 0, None)

  /** A string field read in a JavaScript condition: `null` and `""` are
      both false. */
  predicate Truthy(s: Option<string>) {
    s.Some? && s.value != ""
  }

  datatype Direction = Upload | Download | NoTransfer

  datatype ResolutionType = LocalNewer | RemoteNewer | Same | ManualChoice | Cancelled

  datatype SyncResult = SyncResult(
    success: bool,
    direction: Direction,
    timestamp: int,
    error: Option<string>,
    conflictResolution: Option<ResolutionType>)

  datatype SyncStatus = Idle | Syncing | ErrorStatus | Offline

  /** What one remote call (an HTTP request, the OAuth popup, the user's
      answer to a conflict prompt) turned out to be: a value, or an error
      with its message. */
  datatype Call<T> = Ok(value: T) | Fail(message: string)
}
