/** The three backup providers as objects: each holds the settings store and
    the remote side, and each method runs the source's steps one at a time,
    reading a snapshot, editing its copy and writing the copy back. Every
    method is proved to end in exactly the outcome, store contents and
    remote log that the matching flow function of module BackupFlows
    computes, so every property proved about the flows holds of them. */
module BackupProviders {
  import opened Values
  import opened Settings
  import opened BackupFormat
  import opened BackupFlows

  /** The remote side: the replies still to come, the answers of the
      browser's non-interactive token request still to come, and the log
      of every request issued. */
  class Remote {
    var replies: seq<Response>
    var grants: seq<Option<string>>
    var sent: seq<Request>

    function State(): Net
      reads this
    {
      Net(replies, grants, sent)
    }

    constructor (net: Net)
      ensures State() == net
    {
      replies := net.replies;
      grants := net.grants;
      sent := net.sent;
    }

    /** Issue `req`: log it and take the next reply, if any comes. */
    method Send(req: Request) returns (resp: Response)
      modifies this
      ensures (resp, State()) == BackupFlows.Send(old(State()), req)
      ensures sent == old(sent) + [req]
    {
      sent := sent + [req];
      if replies == [] {
        resp := NoResponse;
      } else {
        resp := replies[0];
        replies := replies[1..];
      }
    }

    /** `chrome.identity.getAuthToken({interactive: false})`. */
    method GetAuthToken() returns (granted: Option<Option<string>>)
      modifies this
      ensures (granted, State()) == Grant(old(State()))
      ensures granted == None <==> old(grants) == []
      ensures sent == old(sent) + [SilentAuth]
    {
      sent := sent + [SilentAuth];
      if grants == [] {
        granted := None;
      } else {
        granted := Some(grants[0]);
        grants := grants[1..];
      }
    }
  }

  // ---------------------------------------------------------------------
  // Token steps shared by Drive and OneDrive.

  /** The refresh-token grant of Drive (fallback path) and OneDrive. */
  method GrantRefresh(store: UserSettings, remote: Remote, p: Provider) returns (out: Outcome<bool>)
    requires p != Provider.Dropbox
    modifies store, remote
    ensures Step(out, store.State(), remote.State())
         == RefreshGrant(old(store.State()), store.localOnly, old(remote.State()), p)
  {
    var userSettings := AllItems(store.State());
    var req :=
      if p == Provider.Drive then DriveRefresh(Lookup(userSettings, RefreshKey(p)))
      else OneDriveRefresh(Lookup(userSettings, RefreshKey(p)),
                           OneDriveScope(Lookup(userSettings, BusinessKey) == Some(Bool(true))));
    var resp := remote.Send(req);
    match resp
    case NoResponse =>
      out := Pending;
    case Reply(status, body) =>
      if status == 401 {
        userSettings := RevokeRefresh(userSettings, p);
        store.SetItems(userSettings);
        return Resolved(false);
      }
      match body
      case ParseError =>
        out := Rejected;
      case Json(res) =>
        if TruthyAt(res, "error") {
          if res["error"] == Str("invalid_grant") {
            userSettings := RevokeRefresh(userSettings, p);
            store.SetItems(userSettings);
          }
          out := Resolved(false);
        } else {
          userSettings := Assign(userSettings, TokenKey(p), Lookup(res, "access_token"));
          store.SetItems(userSettings);
          out := Resolved(true);
        }
  }

  /** `refreshToken()`: Drive asks the browser when it can, otherwise both
      use the refresh-token grant. */
  method RenewToken(store: UserSettings, remote: Remote, p: Provider, silent: bool) returns (out: Outcome<bool>)
    requires p != Provider.Dropbox
    modifies store, remote
    ensures Step(out, store.State(), remote.State())
         == Refresh(old(store.State()), store.localOnly, old(remote.State()), p, silent)
  {
    if p == Provider.Drive && silent {
      var userSettings := AllItems(store.State());
      var granted := remote.GetAuthToken();
      match granted
      case None =>
        out := Pending;
      case Some(token) =>
        var value := if token.Some? then Some(Str(token.value)) else None;
        userSettings := Assign(userSettings, TokenKey(Provider.Drive), value);
        if !Present(value) {
          userSettings := userSettings[RevokedKey(Provider.Drive) := Bool(true)];
        }
        store.SetItems(userSettings);
        out := Resolved(Present(value));
    } else {
      out := GrantRefresh(store, remote, p);
    }
  }

  /** `getToken()` of Drive and OneDrive: refresh when no token is cached,
      otherwise probe it; the value returned is the token of this call's
      own snapshot. */
  method FetchToken(store: UserSettings, remote: Remote, p: Provider, silent: bool)
    returns (out: Outcome<Option<Value>>)
    requires p != Provider.Dropbox
    modifies store, remote
    ensures Step(out, store.State(), remote.State())
         == GetToken(old(store.State()), store.localOnly, old(remote.State()), p, silent)
  {
    var userSettings := AllItems(store.State());
    var stale := false;
    if !TruthyAt(userSettings, TokenKey(p)) {
      stale := true;
    } else {
      var resp := remote.Send(TokenProbe(p));
      match resp
      case NoResponse =>
        return Pending;
      case Reply(_, body) =>
        match body
        case ParseError =>
          return Rejected;
        case Json(res) =>
          if TruthyAt(res, "error") {
            if !ErrorCodeIs(res, 401) {
              return Pending;
            }
            userSettings := userSettings - {TokenKey(p)};
            store.SetItems(userSettings);
            stale := true;
          }
    }
    if stale {
      var refreshed := RenewToken(store, remote, p, silent);
      if refreshed.Rejected? {
        return Rejected;
      } else if refreshed.Pending? {
        return Pending;
      }
    }
    out := Resolved(Lookup(userSettings, TokenKey(p)));
  }

  // ---------------------------------------------------------------------
  // The providers.

  class Dropbox {
    const store: UserSettings
    const remote: Remote

    constructor (store: UserSettings, remote: Remote)
      ensures this.store == store && this.remote == remote
    {
      this.store := store;
      this.remote := remote;
    }

    /** `getToken()`: the cached token, or "" when there is none. */
    method GetToken() returns (token: Value)
      ensures BackupFlows.GetToken(store.State(), store.localOnly, remote.State(), Provider.Dropbox, false)
           == Step(Resolved(Some(token)), store.State(), remote.State())
      ensures Truthy(token) <==> TruthyAt(AllItems(store.State()), TokenKey(Provider.Dropbox))
    {
      var userSettings := AllItems(store.State());
      token := DropboxTokenOf(userSettings);
    }

    method Upload(exportOf: bool -> string, iso: string) returns (out: Outcome<bool>)
      modifies store, remote
      ensures Step(out, store.State(), remote.State())
           == DropboxUploadFlow(old(store.State()), store.localOnly, old(remote.State()), exportOf, iso)
    {
      var userSettings := AllItems(store.State());
      if EncryptedKey(Provider.Dropbox) !in userSettings {
        userSettings := userSettings[EncryptedKey(Provider.Dropbox) := Bool(true)];
        store.SetItems(userSettings);
      }
      var backup := exportOf(EncryptFlag(userSettings, Provider.Dropbox));
      var token := GetToken();
      if !Truthy(token) {
        return Resolved(false);
      }
      var resp := remote.Send(DropboxUpload(DropboxApiArg(iso), backup));
      match resp
      case NoResponse =>
        out := Pending;
      case Reply(status, body) =>
        if status == 401 {
          userSettings := RevokeAccess(userSettings, Provider.Dropbox);
          store.SetItems(userSettings);
          return Resolved(false);
        }
        match body
        case ParseError =>
          out := Rejected;
        case Json(res) =>
          out := Resolved(TruthyAt(res, "name"));
    }

    method GetUser() returns (out: Outcome<UserInfo>)
      modifies store, remote
      ensures Step(out, store.State(), remote.State())
           == DropboxUserFlow(old(store.State()), store.localOnly, old(remote.State()))
    {
      var userSettings := AllItems(store.State());
      var token := GetToken();
      if !Truthy(token) {
        return Resolved(Failure(NoTokenMessage));
      }
      var resp := remote.Send(DropboxAccount);
      match resp
      case NoResponse =>
        out := Pending;
      case Reply(status, body) =>
        if status == 401 {
          userSettings := RevokeAccess(userSettings, Provider.Dropbox);
          store.SetItems(userSettings);
          return Resolved(Failure(Unauthorized401Message));
        }
        match body
        case ParseError =>
          out := Resolved(Failure(ErrorMessage));
        case Json(res) =>
          if TruthyAt(res, "email") {
            out := Resolved(Account(Some(res["email"])));
          } else {
            out := Resolved(Failure(NoEmailMessage));
          }
    }
  }

  class Drive {
    const store: UserSettings
    const remote: Remote
    /** Whether the browser's non-interactive token request is available
        (Chrome, not Opera, not Edge). */
    const silent: bool

    constructor (store: UserSettings, remote: Remote, silent: bool)
      ensures this.store == store && this.remote == remote && this.silent == silent
    {
      this.store := store;
      this.remote := remote;
      this.silent := silent;
    }

    method GetToken() returns (out: Outcome<Option<Value>>)
      modifies store, remote
      ensures Step(out, store.State(), remote.State())
           == BackupFlows.GetToken(old(store.State()), store.localOnly, old(remote.State()), Provider.Drive, silent)
    {
      out := FetchToken(store, remote, Provider.Drive, silent);
    }

    method RefreshToken() returns (out: Outcome<bool>)
      modifies store, remote
      ensures Step(out, store.State(), remote.State())
           == Refresh(old(store.State()), store.localOnly, old(remote.State()), Provider.Drive, silent)
    {
      out := RenewToken(store, remote, Provider.Drive, silent);
    }

    /** The check of the cached folder id in `getFolder()`. */
    method CheckCachedFolder(userSettings: Record) returns (out: Outcome<Record>)
      modifies store, remote
      ensures Step(out, store.State(), remote.State())
           == CheckFolder(old(store.State()), store.localOnly, old(remote.State()), userSettings)
    {
      if !TruthyAt(userSettings, FolderKey) {
        return Resolved(userSettings);
      }
      var snap := userSettings;
      var resp := remote.Send(FolderCheck(snap[FolderKey]));
      match resp
      case NoResponse =>
        out := Pending;
      case Reply(status, body) =>
        if status == 401 {
          snap := snap - {TokenKey(Provider.Drive)};
          store.SetItems(snap);
          return Resolved(snap);
        }
        match body
        case ParseError =>
          out := Rejected;
        case Json(res) =>
          if TruthyAt(res, "error") {
            if !ErrorCodeIs(res, 404) {
              return Pending;
            }
            snap := snap - {FolderKey};
            store.SetItems(snap);
          } else if TruthyAt(res, "trashed") {
            snap := snap - {FolderKey};
            store.SetItems(snap);
          }
          out := Resolved(snap);
    }

    /** The folder creation in `getFolder()`, when the copy holds no id. */
    method CreateMissingFolder(userSettings: Record) returns (out: Outcome<Option<Value>>)
      modifies store, remote
      ensures Step(out, store.State(), remote.State())
           == CreateFolder(old(store.State()), store.localOnly, old(remote.State()), userSettings)
    {
      var snap := userSettings;
      if !TruthyAt(snap, FolderKey) {
        var resp := remote.Send(FolderCreate);
        match resp
        case NoResponse =>
          return Pending;
        case Reply(status, body) =>
          if status == 401 {
            snap := snap - {TokenKey(Provider.Drive)};
            store.SetItems(snap);
          } else {
            match body
            case ParseError =>
              return Rejected;
            case Json(res) =>
              if !TruthyAt(res, "error") {
                snap := Assign(snap, FolderKey, Lookup(res, "id"));
                store.SetItems(snap);
              }
          }
      }
      out := Resolved(Lookup(snap, FolderKey));
    }

    method GetFolder() returns (out: Outcome<Option<Value>>)
      modifies store, remote
      ensures Step(out, store.State(), remote.State())
           == BackupFlows.GetFolder(old(store.State()), store.localOnly, old(remote.State()), silent)
    {
      var token := GetToken();
      match token
      case Rejected =>
        out := Rejected;
      case Pending =>
        out := Pending;
      case Resolved(t) =>
        if !Present(t) {
          return Resolved(Some(Bool(false)));
        }
        var userSettings := AllItems(store.State());
        var checked := CheckCachedFolder(userSettings);
        match checked
        case Rejected =>
          out := Rejected;
        case Pending =>
          out := Pending;
        case Resolved(snap) =>
          out := CreateMissingFolder(snap);
    }

    /** The multipart upload request and its reply; a 401 clears the token
        from `userSettings`, the copy read at the start of the upload. */
    method SendBackup(userSettings: Record, content: string) returns (out: Outcome<bool>)
      modifies store, remote
      ensures Step(out, store.State(), remote.State())
           == DriveSendBackup(old(store.State()), store.localOnly, old(remote.State()), userSettings, content)
    {
      var resp := remote.Send(DriveUpload(content));
      match resp
      case NoResponse =>
        out := Pending;
      case Reply(status, body) =>
        if status == 401 {
          store.SetItems(userSettings - {TokenKey(Provider.Drive)});
          return Resolved(false);
        }
        match body
        case ParseError =>
          out := Rejected;
        case Json(res) =>
          out := Resolved(!TruthyAt(res, "error"));
    }

    method Upload(exportOf: bool -> string, iso: string) returns (out: Outcome<bool>)
      modifies store, remote
      ensures Step(out, store.State(), remote.State())
           == DriveUploadFlow(old(store.State()), store.localOnly, old(remote.State()), silent, exportOf, iso)
    {
      var userSettings := AllItems(store.State());
      if EncryptedKey(Provider.Drive) !in userSettings {
        userSettings := userSettings[EncryptedKey(Provider.Drive) := Bool(true)];
        store.SetItems(userSettings);
      }
      var backup := exportOf(EncryptFlag(userSettings, Provider.Drive));
      var token := GetToken();
      if !token.Resolved? {
        return if token.Rejected? then Rejected else Pending;
      }
      if !Present(token.value) {
        return Resolved(false);
      }
      var folderId := GetFolder();
      if !folderId.Resolved? {
        return if folderId.Rejected? then Rejected else Pending;
      }
      if !Present(folderId.value) {
        return Resolved(false);
      }
      var requestData := BuildRequestData(DriveRequestLines(iso, Lookup(userSettings, FolderKey), backup));
      out := SendBackup(userSettings, requestData);
    }

    method GetUser() returns (out: Outcome<UserInfo>)
      modifies store, remote
      ensures Step(out, store.State(), remote.State())
           == GraphUserFlow(old(store.State()), store.localOnly, old(remote.State()), Provider.Drive, silent)
    {
      out := AccountOf(store, remote, Provider.Drive, silent);
    }
  }

  /** `getUser()` of Drive and OneDrive. */
  method AccountOf(store: UserSettings, remote: Remote, p: Provider, silent: bool) returns (out: Outcome<UserInfo>)
    requires p != Provider.Dropbox
    modifies store, remote
    ensures Step(out, store.State(), remote.State())
         == GraphUserFlow(old(store.State()), store.localOnly, old(remote.State()), p, silent)
  {
    var token := FetchToken(store, remote, p, silent);
    match token
    case Rejected =>
      out := Rejected;
    case Pending =>
      out := Pending;
    case Resolved(t) =>
      if !Present(t) {
        return Resolved(Failure(RevokedMessage));
      }
      var userSettings := AllItems(store.State());
      var resp := remote.Send(AccountInfo(p));
      match resp
      case NoResponse =>
        out := Pending;
      case Reply(status, body) =>
        if status == 401 {
          userSettings := userSettings - {TokenKey(p)};
          store.SetItems(userSettings);
          return Resolved(Failure(Unauthorized401Message));
        }
        match body
        case ParseError =>
          out := Resolved(Failure(ErrorMessage));
        case Json(res) =>
          if TruthyAt(res, "error") {
            out := Resolved(Failure(ErrorMessage));
          } else if p == Provider.Drive {
            out := Resolved(DriveAccount(res));
          } else {
            out := Resolved(Account(Lookup(res, "userPrincipalName")));
          }
  }

  class OneDrive {
    const store: UserSettings
    const remote: Remote

    constructor (store: UserSettings, remote: Remote)
      ensures this.store == store && this.remote == remote
    {
      this.store := store;
      this.remote := remote;
    }

    method GetToken() returns (out: Outcome<Option<Value>>)
      modifies store, remote
      ensures Step(out, store.State(), remote.State())
           == BackupFlows.GetToken(old(store.State()), store.localOnly, old(remote.State()), Provider.OneDrive, false)
    {
      out := FetchToken(store, remote, Provider.OneDrive, false);
    }

    method RefreshToken() returns (out: Outcome<bool>)
      modifies store, remote
      ensures Step(out, store.State(), remote.State())
           == Refresh(old(store.State()), store.localOnly, old(remote.State()), Provider.OneDrive, false)
    {
      out := GrantRefresh(store, remote, Provider.OneDrive);
    }

    method Upload(exportOf: bool -> string, iso: string) returns (out: Outcome<bool>)
      modifies store, remote
      ensures Step(out, store.State(), remote.State())
           == OneDriveUploadFlow(old(store.State()), store.localOnly, old(remote.State()), exportOf, iso)
    {
      var userSettings := AllItems(store.State());
      if EncryptedKey(Provider.OneDrive) !in userSettings {
        userSettings := userSettings[EncryptedKey(Provider.OneDrive) := Bool(true)];
      }
      var backup := exportOf(EncryptFlag(userSettings, Provider.OneDrive));
      var token := GetToken();
      if !token.Resolved? {
        return if token.Rejected? then Rejected else Pending;
      }
      if !Present(token.value) {
        return Resolved(false);
      }
      var resp := remote.Send(OneDriveUpload(BackupFileName(iso), backup));
      match resp
      case NoResponse =>
        out := Pending;
      case Reply(status, body) =>
        if status == 401 {
          var _ := store.RemoveItem(TokenKey(Provider.OneDrive));
          return Resolved(false);
        }
        match body
        case ParseError =>
          out := Rejected;
        case Json(res) =>
          out := Resolved(!TruthyAt(res, "error"));
    }

    method GetUser() returns (out: Outcome<UserInfo>)
      modifies store, remote
      ensures Step(out, store.State(), remote.State())
           == GraphUserFlow(old(store.State()), store.localOnly, old(remote.State()), Provider.OneDrive, false)
    {
      out := AccountOf(store, remote, Provider.OneDrive, false);
    }
  }
}
