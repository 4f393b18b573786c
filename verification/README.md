# Authenticator settings store and cloud backup, modelled in Dafny

This project models the core of a browser-extension authenticator: the
store that keeps the user's settings record in two browser storage areas,
the three cloud backup providers (Dropbox, Google Drive, OneDrive) that
read and rewrite that record while they manage their credentials, and the
three UI store modules (advisor, backup page, menu) that derive their state
from it.

- **Settings store** (`settings.dfy`, module `Settings`). The two storage
  areas `local` and `sync` are the fields of class `UserSettings`. The
  `storageLocation` preference in the local area selects the mode. In Local
  mode the local area holds the whole record. In Sync mode the record is
  split by a set of local-only keys, and reading merges the two areas with
  local values winning. Pure functions (`AllItems`, `Written`,
  `Relocated`, `Removed`) specify the methods (`SetItems`, `SetLocation`,
  `RemoveItem`, and the `SplitSettings` loop). The local-only key set is a
  parameter of the store. `LocalOnlyKeys` holds the declared fields;
  `AsWrittenLocalOnlyKeys` holds what the code's membership test sees.
- **Backup providers.**
  - `backup_flows.dfy` (module `BackupFlows`) states every provider
    operation as a function of the store contents and a `Net`. A `Net` is a
    queue of HTTP replies, a queue of answers of the browser's
    non-interactive token request, and the log of requests issued. Each
    function returns the outcome (resolved, rejected, or never settled),
    the new store and the new `Net`.
  - Every flow reads its own settings snapshot, edits it and writes it back
    whole. The snapshots are explicit, so a late write of an early snapshot
    undoes what was written in between.
  - `backup_providers.dfy` (module `BackupProviders`) holds classes
    `Dropbox`, `Drive` and `OneDrive` over a `UserSettings` store and a
    `Remote`. Each method runs the source's steps imperatively. Each is
    proved to end in exactly the outcome, store and request log that its
    flow function computes.
  - `backup_format.dfy` builds the strings: the backup file name, the
    Dropbox upload argument, the Drive multipart body (a loop), and the
    OneDrive scope.
  - `backup_properties.dfy` proves what the flows promise.
  - `backup_findings.dfy` shows two defects and their corrections.
- **Store modules.**
  - `advisor_store.dfy` covers the insight validations, the filtering
    `GetInsights` loop, and the `Advisor` class with its three mutations.
  - `backup_store.dfy` covers the backup page's flags and its two
    mutations.
  - `menu_store.dfy` covers the menu's defaults and its six setters.

Three behaviours of the code are worth knowing when reading the model:

- **Precedence when switching to Sync.** `setLocation(Sync)` builds the
  sync area as the old local record overridden by the old sync record
  (src/models/settings.ts:76), so sync values win.
- **Drive refresh.** On Chrome, Drive renews its token only through the
  browser's token request. Other browsers use only the refresh-token
  grant (src/models/backup.ts:172-244).
- **OneDrive without a refresh token.** With neither an access token nor a
  refresh token cached, OneDrive skips the probe and sends a refresh
  request that carries no refresh token
  (`OneDriveRefreshesWithoutRefreshToken`).

## Model

| member | source | states |
|---|---|---|
| Values.Assign | src/models/backup.ts:230 | assigning a value, or `undefined`, sets exactly that property (absent for `undefined`) and leaves every other property as it was |
| Values.NumberOf | src/store/Advisor.ts:22 | `Number(v)`: `undefined` is NaN, a stored number is itself, and a nonzero result comes only from a truthy value |
| Settings.ModeOf | src/models/settings.ts:101-104 | the mode the local record selects: Local when `storageLocation` is absent or "local", Sync when it is "sync", and Sync only when the stored preference is truthy |
| Settings.StorageData | src/models/settings.ts:156-161 | reading one area: the local area carries the mode; in Local mode it is everything `getAllItems` returns; in Sync mode every key of either area is returned by `getAllItems`, local values as stored |
| Settings.AllItems | src/models/settings.ts:97-112 | Local mode reads the local area as it is; Sync mode reads every key of both areas, with the local value winning on overlap |
| Settings.UserSettings.constructor | src/models/settings.ts:156-161 | the store reads back the two areas it was given, and uses the given local-only key set |
| Settings.UserSettings.SplitSettings | src/models/settings.ts:163-180 | the loop sends every key to exactly one half with its value unchanged: local-only keys go to the local half and the rest to the syncable half, and the halves together rebuild the input |
| Settings.UserSettings.SetItems | src/models/settings.ts:114-137 | the areas become `Written` of the old areas, the mode read at the start deciding: the whole record in Local mode, the split record in Sync mode |
| Settings.UserSettings.SetLocation | src/models/settings.ts:67-95 | the areas become `Relocated` of the old areas: the merge goes to the target area, then the old local record, marked with the new location, goes through `setItems` in whatever mode the first step left |
| Settings.UserSettings.RemoveItem | src/models/settings.ts:139-154 | succeeds exactly when `Removed` of the old areas is defined, that is when the storage preference names an existing area, and then the areas become what `Removed` gives: that area's copy without the key, written through `setItems`; on failure nothing changes |
| SettingsProperties.LocalModeIgnoresSync | src/models/settings.ts:97-106 | with `storageLocation` unset or "local", reading returns the local area unchanged, whatever the sync area holds |
| SettingsProperties.LocalModeWrite | src/models/settings.ts:114-122 | a Local-mode write replaces the local area and leaves sync untouched |
| SettingsProperties.SyncModeWriteSplits | src/models/settings.ts:124-135 | a Sync-mode write puts only local-only keys in local and only the others in sync, values unchanged and nothing lost |
| SettingsProperties.RoundTrip | src/models/settings.ts:97-137 | writing a record whose `storageLocation` agrees with the mode (and is local-only in Sync mode) reads back as that record |
| SettingsProperties.RelocateToSyncFromLocal | src/models/settings.ts:67-94 | switching to Sync from Local mode: sync becomes old local overridden by old sync, local becomes old local marked "sync", and reading yields every key of both old areas with local values winning |
| SettingsProperties.RemoveInLocalMode | src/models/settings.ts:139-154 | in Local mode, removing a key leaves the local area minus that key and the sync area untouched |
| SettingsProperties.RemoveInSyncMode | src/models/settings.ts:139-154 | in Sync mode, removal rewrites both areas from the halves of the one area it read, minus the key |
| SettingsProperties.AsWrittenSyncWriteLeaksToken | src/models/settings.ts:163-174 | with the membership test as written, a Sync-mode write puts a token in the sync area, empties local, and loses the Sync preference |
| SettingsProperties.DeclaredKeysSyncWrite | src/models/settings.ts:8-25 | with the declared local-only fields, no token, refresh token or revoked flag reaches sync, and the record reads back |
| SettingsProperties.AsWrittenRelocateCopiesSecrets | src/models/settings.ts:72-80 | switching to Sync copies every local-only key held locally into the sync area |
| SettingsProperties.AsWrittenRelocateToLocalLosesSettings | src/models/settings.ts:81-94 | switching from Sync back to Local loses the syncable settings: in a concrete store `theme` disappears, both with the declared local-only keys and with the empty key set the code sees at run time (where the local area ends up empty) |
| SettingsProperties.IntendedRelocateToSync | src/models/settings.ts:67-94 | the corrected migration to Sync reads back the merged record and keeps every local-only key out of sync |
| SettingsProperties.IntendedRelocateToLocal | src/models/settings.ts:81-94 | the corrected migration to Local reads back every key of both old areas |
| SettingsProperties.AsWrittenRemoveWipesSync | src/models/settings.ts:146-153 | removing a token in Sync mode loses the syncable settings in a concrete store: with the declared local-only keys the sync area is emptied; with the empty key set the code sees at run time the local area is emptied instead, the Sync preference is lost and the store reads as empty |
| SettingsProperties.IntendedRemoveDropsOnlyKey | src/models/settings.ts:139-154 | the corrected removal in a well-split Sync store removes exactly the one key from what reading returns |
| BackupFormat.RemoveDashes | src/models/backup.ts:34 | the result holds no dash and is no longer than the input |
| BackupFormat.RemoveDashesAppend | src/models/backup.ts:34 | dash removal distributes over concatenation |
| BackupFormat.RemoveDashesKeepsPlain | src/models/backup.ts:34 | text without dashes is left as it is |
| BackupFormat.FileNameOfIsoDate | src/models/backup.ts:34 | an ISO timestamp `YYYY-MM-DD…` names the file `YYYYMMDD.json`, 13 characters |
| BackupFormat.DropboxApiArgOfIsoDate | src/models/backup.ts:34-43 | the Dropbox argument is `{"path":"/YYYYMMDD.json","mode":"add","autorename":true}` |
| BackupFormat.BuildRequestData | src/models/backup.ts:422-425 | the loop appends every line followed by a newline; the result is `Lines` of the input |
| BackupFormat.DriveMetadataOfIsoDate | src/models/backup.ts:411-414 | for a timestamp `YYYY-MM-DD…` and a plain folder id the metadata line is `{"name":"YYYYMMDD.json","parents":["<id>"]}`, and with no folder cached the parent is `null` |
| BackupFormat.DriveBodyShape | src/models/backup.ts:407-425 | the body opens with the boundary line, its fourth line is the metadata line (see `DriveMetadataOfIsoDate`), the backup text follows the eight header lines whole, and it ends with the closing boundary |
| BackupFormat.OneDriveScopePermissions | src/models/backup.ts:568-576 | the scope limits file access to the app folder (`.AppFolder` occurs) exactly when the account is not a business account, and always asks for the user profile and offline access |
| BackupProperties.SnapshotMode | src/models/settings.ts:101-111 | a snapshot carries the mode of the store it was read from |
| BackupProperties.WriteBack | src/models/backup.ts:13-17 | writing back an edited snapshot that keeps the storage preference makes the store read exactly that record and keeps it coherent |
| BackupProperties.RefreshIssues | src/models/backup.ts:169-245 | a refresh issues exactly one request, the provider's refresh |
| BackupProperties.GetTokenRequests | src/models/backup.ts:114-167 | `getToken` issues nothing (Dropbox), a probe, a refresh, or a probe then one refresh; a usable result is the token cached before the call, with nothing written, after a single probe; a call that refreshed never returns a usable token |
| BackupProperties.GetTokenKeeps | src/models/backup.ts:114-167 | a token lookup never moves the storage preference |
| BackupProperties.RefreshKeeps | src/models/backup.ts:169-245 | a refresh never moves the storage preference |
| BackupProperties.RefreshGrantOutcomes | src/models/backup.ts:194-243 | a 401 or `invalid_grant` clears the refresh token and marks the credential revoked; any other error changes nothing; a grant stores `access_token`; only a grant resolves true |
| BackupProperties.SilentRefreshOutcomes | src/models/backup.ts:177-192 | the browser's token is stored as the access token; none or an empty one marks the credential revoked; only a non-empty token resolves true |
| BackupProperties.ProbeRejectedUnfolds | src/models/backup.ts:129-164 | a probe reporting error 401 leads to one refresh of the store with the token cleared |
| BackupProperties.ProbeRejectedThenGrantRefused | src/models/backup.ts:129-166 | probe 401 then a refused grant: a probe and one refresh, no token returned, token and refresh token cleared, revoked set, nothing else changed |
| BackupProperties.ProbeAccepted | src/models/backup.ts:150-166 | a probe without error returns the cached token and writes nothing |
| BackupProperties.OneDriveRefreshesWithoutRefreshToken | src/models/backup.ts:568-576 | with no access token and no refresh token, OneDrive still sends a refresh request, carrying no refresh token |
| BackupProperties.CheckFolderIssues | src/models/backup.ts:253-303 | the folder check issues at most one folder request |
| BackupProperties.CreateFolderIssues | src/models/backup.ts:304-348 | the folder creation issues at most one folder request |
| BackupProperties.EnsureFolderRequests | src/models/backup.ts:252-349 | the folder step issues at most a check and a creation |
| BackupProperties.GetFolderRequests | src/models/backup.ts:247-350 | `getFolder` never uploads; a folder id comes only after a probe the remote side accepted, with nothing refreshed |
| BackupProperties.CachedFolderKept | src/models/backup.ts:283-291 | a cached id the check confirms is kept: one request, nothing written |
| BackupProperties.StaleFolderReplaced | src/models/backup.ts:276-328 | an id reported 404 or trashed is cleared, a folder created and its `id` cached; nothing else changes |
| BackupProperties.MissingFolderCreated | src/models/backup.ts:304-349 | with no id cached, a folder is created and its `id` cached |
| BackupProperties.CheckFolderCaches | src/models/backup.ts:268-292 | the record the check returns is what the store then reads |
| BackupProperties.CreateFolderCaches | src/models/backup.ts:316-332 | the folder id the creation returns is the one the store then caches |
| BackupProperties.GetFolderCaches | src/models/backup.ts:247-350 | the folder id `getFolder` returns is the one the store caches when it returns |
| BackupProperties.FolderCheckHangs | src/models/backup.ts:277-282 | a check reporting an error other than 404 never settles and writes nothing |
| BackupProperties.EncryptByDefault | src/models/backup.ts:14-18 | an unset encrypt flag reads as true; Dropbox and Drive persist it, OneDrive only sets its copy |
| BackupProperties.UploadRequests | src/models/backup.ts:26-31 | for every provider, an upload request comes last, only when a token was cached before the call, and never after a refresh; success needs that request |
| BackupProperties.DropboxUploadRequests | src/models/backup.ts:12-71 | the Dropbox upload obeys the upload guard |
| BackupProperties.OneDriveUploadRequests | src/models/backup.ts:581-637 | the OneDrive upload obeys the upload guard |
| BackupProperties.DriveUploadUnfolds | src/models/backup.ts:364-373 | the Drive upload ends at no token, at no folder, or with the upload request |
| BackupProperties.DriveSendBackupOutcomes | src/models/backup.ts:386-406 | the upload request: a 401 writes back the given snapshot without the token; other replies write nothing; only a reply without error resolves true |
| BackupProperties.DriveUploadRequests | src/models/backup.ts:352-432 | the Drive upload obeys the guard, and its request names the folder id of the snapshot read at the start |
| BackupProperties.NoTokenNoUpload | src/models/backup.ts:364-367 | with no token cached, no provider's `upload` succeeds or issues an upload request |
| BackupProperties.DropboxUpload401Revokes | src/models/backup.ts:44-51 | a Dropbox upload refused with 401 clears the token, sets revoked, and changes nothing else; later uploads and `getUser` then fail without a request |
| BackupProperties.DropboxUser401Revokes | src/models/backup.ts:83-92 | Dropbox `getUser` on a 401 reports the logout message and revokes the same way |
| BackupProperties.NoTokenNoAccount | src/models/backup.ts:434-438 | without a token, `getUser` reports the no-token or revoked text and never asks for the account |
| BackupFindings.AsWrittenRefreshedTokenDiscarded | src/models/backup.ts:164-166 | after an accepted grant the store holds the new token, yet `getToken` returns none and the upload fails |
| BackupFindings.IntendedGetTokenReturnsStored | src/models/backup.ts:164-166 | the corrected `getToken` makes the same requests and writes and returns the token the store then holds |
| BackupFindings.IntendedGetTokenAfterGrant | src/models/backup.ts:229-233 | the corrected `getToken` returns the `access_token` of an accepted grant |
| BackupFindings.ScenarioFolderStep | src/models/backup.ts:247-350 | in the replaced-folder scenario, `getFolder` returns and caches the new folder id after four requests |
| BackupFindings.AsWrittenDriveUploadUsesStaleFolder | src/models/backup.ts:407-414 | the upload names the folder id just reported missing, and a 401 writes that missing id back over the new one |
| BackupFindings.ScenarioUpload | src/models/backup.ts:386-392 | the fifth request is the upload; a 401 writes back the given record without its token |
| BackupFindings.IntendedDriveUploadUnfolds | src/models/backup.ts:368-373 | the corrected Drive upload ends at no token, at no folder, or with an upload naming `getFolder`'s id |
| BackupFindings.IntendedDriveUploadNamesCachedFolder | src/models/backup.ts:368-414 | the corrected upload always names the folder the store caches after the call |
| BackupFindings.IntendedDriveUploadUsesNewFolder | src/models/backup.ts:368-414 | in the scenario, the corrected upload names the new folder and the store keeps it |
| BackupProviders.Remote.Send | src/models/backup.ts:65 | a request is logged and takes the next reply, or none |
| BackupProviders.Remote.GetAuthToken | src/models/backup.ts:178-191 | the browser's token request is logged and takes the next answer; none comes when the queue is empty |
| BackupProviders.GrantRefresh | src/models/backup.ts:194-243 | ends as `RefreshGrant` prescribes |
| BackupProviders.RenewToken | src/models/backup.ts:169-245 | ends as `Refresh` prescribes |
| BackupProviders.FetchToken | src/models/backup.ts:114-167 | ends as `GetToken` prescribes |
| BackupProviders.AccountOf | src/models/backup.ts:434-474 | ends as `GraphUserFlow` prescribes |
| BackupProviders.Dropbox.constructor | src/models/backup.ts:6 | the provider uses the given store and remote side |
| BackupProviders.Dropbox.GetToken | src/models/backup.ts:7-10 | returns the cached token, or "", which is truthy exactly when a token is cached; nothing changes |
| BackupProviders.Dropbox.Upload | src/models/backup.ts:12-71 | ends as `DropboxUploadFlow` prescribes |
| BackupProviders.Dropbox.GetUser | src/models/backup.ts:72-110 | ends as `DropboxUserFlow` prescribes |
| BackupProviders.Drive.constructor | src/models/backup.ts:113 | the provider uses the given store, remote side and browser capability |
| BackupProviders.Drive.GetToken | src/models/backup.ts:114-167 | ends as `GetToken` prescribes for Drive |
| BackupProviders.Drive.RefreshToken | src/models/backup.ts:169-245 | ends as `Refresh` prescribes for Drive |
| BackupProviders.Drive.CheckCachedFolder | src/models/backup.ts:253-303 | ends as `CheckFolder` prescribes |
| BackupProviders.Drive.CreateMissingFolder | src/models/backup.ts:304-348 | ends as `CreateFolder` prescribes |
| BackupProviders.Drive.GetFolder | src/models/backup.ts:247-350 | ends as `GetFolder` prescribes |
| BackupProviders.Drive.SendBackup | src/models/backup.ts:369-431 | ends as `DriveSendBackup` prescribes |
| BackupProviders.Drive.Upload | src/models/backup.ts:352-432 | ends as `DriveUploadFlow` prescribes |
| BackupProviders.Drive.GetUser | src/models/backup.ts:434-474 | ends as `GraphUserFlow` prescribes for Drive |
| BackupProviders.OneDrive.constructor | src/models/backup.ts:477 | the provider uses the given store and remote side |
| BackupProviders.OneDrive.GetToken | src/models/backup.ts:478-523 | ends as `GetToken` prescribes for OneDrive |
| BackupProviders.OneDrive.RefreshToken | src/models/backup.ts:525-579 | ends as `Refresh` prescribes for OneDrive |
| BackupProviders.OneDrive.Upload | src/models/backup.ts:581-637 | ends as `OneDriveUploadFlow` prescribes |
| BackupProviders.OneDrive.GetUser | src/models/backup.ts:639-677 | ends as `GraphUserFlow` prescribes for OneDrive |
| AdvisorStore.InsightRules | src/store/Advisor.ts:5-59 | `passwordNotSet` iff no key; `autoLockNotSet` iff a key and `autolock` unset or 0; `browserSyncNotEnabled` iff the preference is not "sync"; `autoFillNotEnabled` iff `autofill !== true`; `smartFilterNotEnabled` iff `smartFilter === false` |
| AdvisorStore.VisibleMembers | src/store/Advisor.ts:105-115 | an insight is shown exactly when it is listed, not ignored and valid |
| AdvisorStore.VisibleInOrder | src/store/Advisor.ts:103-115 | the shown insights keep the order of `insightsData` |
| AdvisorStore.GetInsights | src/store/Advisor.ts:96-120 | the loop returns, in order, exactly the listed insights that are not ignored and whose validation holds |
| AdvisorStore.Advisor.constructor | src/store/Advisor.ts:62-68 | the insights are those of the snapshot read, and the ignore list is the stored one, or empty |
| AdvisorStore.Advisor.DismissInsight | src/store/Advisor.ts:70-76 | appends the id (repeats kept), mirrors the list into the copy, persists the copy, and recomputes the insights from the store |
| AdvisorStore.Advisor.ClearIgnoreList | src/store/Advisor.ts:77-83 | empties the list, unsets it in the copy, persists, and recomputes |
| AdvisorStore.Advisor.UpdateInsight | src/store/Advisor.ts:84-90 | recomputes the insights from the store and rereads the list from the module's copy |
| AdvisorStore.DismissedInsightHidden | src/store/Advisor.ts:70-75 | after a dismissal is persisted, the dismissed insight is not shown |
| AdvisorStore.ClearedShowsAllValid | src/store/Advisor.ts:77-82 | after clearing, every listed insight whose validation holds is shown |
| AdvisorStore.SyncRetiresBrowserSyncInsight | src/store/Advisor.ts:31-35 | switching a Local-mode store to Sync hides the browser-sync insight |
| BackupStore.Backup.constructor | src/store/Backup.ts:4-14 | each encrypted flag is `=== true` of its setting, and each token flag is the token's truthiness |
| BackupStore.Backup.SetToken | src/store/Backup.ts:16-36 | a known service changes only its token flag; an unknown one changes nothing; the store is not written |
| BackupStore.Backup.SetEnc | src/store/Backup.ts:37-54 | a known service changes only its encrypted flag; an unknown one changes nothing; the store is not written |
| BackupStore.TokenFlagGuardsUpload | src/store/Backup.ts:11-13 | when the page shows no token for a provider, its upload does not succeed and issues no upload request |
| BackupStore.RevokedDropboxShownLoggedOut | src/store/Backup.ts:11 | after a Dropbox 401, a freshly loaded page shows no Dropbox token and the other flags as before |
| BackupStore.EncryptionShownAfterDefault | src/store/Backup.ts:8-10 | with the flag unset the page shows encryption off; after the upload's default it shows on for Dropbox and Drive, but not for OneDrive |
| MenuStore.MenuDefaults | src/store/Menu.ts:11-16 | unset settings give zoom 100, autofill and context menu off, smart filter on, the browser's default theme, auto-lock 0 |
| MenuStore.MenuStoredValues | src/store/Menu.ts:11-16 | a nonzero stored number is taken and zero falls back; only `true` enables autofill or the context menu; only `false` disables the smart filter; an empty theme falls back |
| MenuStore.Menu.constructor | src/store/Menu.ts:6-27 | the state is `InitialMenu` of the snapshot read |
| MenuStore.Menu.SetZoom | src/store/Menu.ts:29-34 | sets the zoom in the state and the copy, persists the copy, changes nothing else |
| MenuStore.Menu.SetAutofill | src/store/Menu.ts:35-39 | sets autofill in the state and the copy, persists the copy, changes nothing else |
| MenuStore.Menu.SetSmartFilter | src/store/Menu.ts:40-44 | sets the smart filter in the state and the copy, persists the copy, changes nothing else |
| MenuStore.Menu.SetEnableContextMenu | src/store/Menu.ts:45-49 | sets the context menu flag in the state and the copy, persists the copy, changes nothing else |
| MenuStore.Menu.SetTheme | src/store/Menu.ts:50-54 | sets the theme in the state and the copy, persists the copy, changes nothing else |
| MenuStore.Menu.SetAutolock | src/store/Menu.ts:55-59 | sets auto-lock in the state and the copy, persists the copy, changes nothing else |
| MenuStore.ReloadReadsCopy | src/store/Menu.ts:29-59 | a setter's persisted copy is what the next load reads, provided it holds the store's storage preference |
| MenuStore.SettersSurviveReload | src/store/Menu.ts:8-59 | each setter's value survives a reload with the loading defaults applied (zero zoom as 100, empty theme as the default), and no other preference moves |

The functions that define what the operations compute have no rows of
their own. They are `Settings.Written`, `Relocated`, `RemovalArea` and
`Removed`, and the flow functions of `BackupFlows` (`RefreshGrant`, `SilentRefresh`, `Refresh`, `GetToken`,
`CheckFolder`, `CreateFolder`, `EnsureFolder`, `GetFolder`,
`DropboxUploadFlow`, `DriveUploadFlow`, `DriveSendBackup`,
`OneDriveUploadFlow`, `DropboxUserFlow`, `GraphUserFlow`). They are
covered through the method rows above, whose `ensures` equate the
method's result and new state with them, and through the property lemmas
stated about them.

## Left out

- The network is left out: URLs, headers, credentials (`getCredentials`), request bodies other than the Drive multipart body, and the `Authorization` header. A request is a `Request` value in a log, and a reply is taken from a queue.
- `chrome.identity.removeCachedAuthToken` (src/models/backup.ts:135-145) is left out. It clears only the browser's token cache, which is not part of the settings record.
- `navigator.userAgent` sniffing is reduced to the boolean `silent`, which says whether the browser's non-interactive token request is used.
- Concurrency is left out. Writes are sequential and immediate: the un-awaited `setItems` calls, the `Promise.all` of the Sync-mode write, and races between whole-record writes are not modelled.
- `UserSettings.convertFromLocalStorage` (src/models/settings.ts:39-65) is left out. It builds a record and discards it, so it has no observable effect.
- The UI plumbing is left out: `Menu.resize` (floating point and DOM), the manifest version, the `ManagedStorage` policies, `chrome.i18n` texts, and `AdvisorInsight` construction.
- The export is left out: `EntryStorage.backupGetExport` and its `JSON.stringify` are the parameter `exportOf`, and `hasEncryptionKey` is the parameter `hasKey`. The clock is the ISO-8601 text `iso`.
- AdvisorStore.IgnoreListOf: a legacy ignore list stored as a JSON string is read as empty; its `JSON.parse` is not modelled.
- Values.NumberOf: numeric strings and one-element arrays read as NaN instead of being converted; settings hold numbers as numbers.
- Numbers are integers; fractional zoom or auto-lock values are not modelled.
- A reply body that parses to something other than an object is not modelled.
- JSON text is generated only for strings (`JsonQuote`), covering the file name and the folder id. A folder id that is not a string is written `null`, which is exact only for `undefined`.
- BackupProperties.Coherent: the lemmas that assume it (BackupProperties.WriteBack, GetTokenKeeps, RefreshKeeps, RefreshGrantOutcomes, SilentRefreshOutcomes, ProbeRejectedThenGrantRefused, EncryptByDefault, NoTokenNoUpload, GetFolderCaches, CheckFolderCaches, CreateFolderCaches, MissingFolderCreated, StaleFolderReplaced, UploadRequests, DriveUploadRequests, OneDriveUploadRequests, DropboxUploadRequests, DropboxUser401Revokes, DropboxUpload401Revokes, DropboxLoggedOut; BackupFindings.AsWrittenRefreshedTokenDiscarded, IntendedGetTokenAfterGrant, IntendedDriveUploadNamesCachedFolder, and through `ReplacedFolderScenario` ScenarioFolderStep, AsWrittenDriveUploadUsesStaleFolder, IntendedDriveUploadUsesNewFolder; AdvisorStore.DismissedInsightHidden, ClearedShowsAllValid; BackupStore.TokenFlagGuardsUpload, EncryptionShownAfterDefault, RevokedDropboxShownLoggedOut; MenuStore.ReloadReadsCopy) cover both modes with the declared `LocalOnlyKeys`. With the empty key set the code's membership test sees (`AsWrittenLocalOnlyKeys`), `Coherent` holds only in Local mode, so for the code as written they cover Local mode only. Sync-mode writes as written are the subject of the first Findings row (`AsWrittenSyncWriteLeaksToken`).
- The store's `managed` area and every storage key other than `UserSettings` are left out.

## Findings

| source | as written | input that shows it | evidently intended | confidence | as-written member | corrected member |
|---|---|---|---|---|---|---|
| src/models/settings.ts:146-169 | `Object.keys(LocalUserSettingsData)` lists the keys of a class whose fields are only declared, so no key is local-only | Sync mode, writing `{storageLocation: "sync", dropboxToken: "t"}` | the declared fields at :9-24 are local-only | high, not executed | SettingsProperties.AsWrittenSyncWriteLeaksToken | SettingsProperties.DeclaredKeysSyncWrite |
| src/models/settings.ts:72-80 | switching to Sync writes every local key, tokens included, to the sync area | Local mode with `dropboxToken` in local, `setLocation(Sync)` | local-only keys stay out of sync | medium, not executed | SettingsProperties.AsWrittenRelocateCopiesSecrets | SettingsProperties.IntendedRelocateToSync |
| src/models/settings.ts:81-94 | switching to Local writes the merge to local, then `setItems` of the old local record still runs in Sync mode and overwrites both areas | local `{storageLocation: "sync"}`, sync `{theme: "dark"}`, `setLocation(Local)` | the merged record survives in local | high, not executed | SettingsProperties.AsWrittenRelocateToLocalLosesSettings | SettingsProperties.IntendedRelocateToLocal |
| src/models/settings.ts:146-153 | `removeItem` passes one area's copy to `setItems`, which rewrites both areas in Sync mode; as written (no key local-only) the sync copy is read, the local area is emptied and the store falls back to Local mode reading nothing, and with the declared keys the sync area is emptied | local `{storageLocation: "sync", dropboxToken: "t"}`, sync `{theme: "dark"}`, `removeItem("dropboxToken")` | only the key is removed | high, not executed | SettingsProperties.AsWrittenRemoveWipesSync | SettingsProperties.IntendedRemoveDropsOnlyKey |
| src/models/backup.ts:164-166 | `getToken` returns the token of its own snapshot after `refreshToken`, so a refreshed token is never returned | no Drive token cached, the refresh grant returns an `access_token` | the refreshed token is returned | high, not executed | BackupFindings.AsWrittenRefreshedTokenDiscarded | BackupFindings.IntendedGetTokenAfterGrant |
| src/models/backup.ts:388-413 | the Drive upload names the folder id of the snapshot read at :353, and its 401 branch writes that snapshot back | a cached folder id that the check reports 404; a new folder is created; the upload gets 401 | the upload names the folder `getFolder` returned, and the new id stays cached | high, not executed | BackupFindings.AsWrittenDriveUploadUsesStaleFolder | BackupFindings.IntendedDriveUploadUsesNewFolder |

The providers, the settings class and the store modules model the code as
written. The corrected definitions (`IntendedRelocated`, `IntendedRemoved`,
`IntendedGetToken`, `IntendedDriveUploadFlow`) stand beside them. The store
takes its local-only key set as a parameter, so it can be instantiated with
`LocalOnlyKeys`.
