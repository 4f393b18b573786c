/** The token life cycle and the upload and account flows of the three
    backup providers, as functions of the store contents and of what the
    remote side answers.

    Every HTTP exchange takes the next reply from a queue and logs the
    request it answers; an exhausted queue stands for a request whose
    callback never fires. The browser's non-interactive token request
    (Drive in Chrome) answers from a queue of its own. Each flow reads its
    own snapshot of the settings with getAllItems, changes fields of that
    copy and writes the whole copy back with setItems; the snapshots are
    explicit, so a later write of an earlier snapshot undoes whatever was
    written in between. */
module BackupFlows {
  import opened Values
  import opened Settings
  import opened BackupFormat

  datatype Provider = Dropbox | Drive | OneDrive

  function TokenKey(p: Provider): string {
    match p
    case Dropbox => "dropboxToken"
    case Drive => "driveToken"
    case OneDrive => "oneDriveToken"
  }

  function RevokedKey(p: Provider): string {
    match p
    case Dropbox => "dropboxRevoked"
    case Drive => "driveRevoked"
    case OneDrive => "oneDriveRevoked"
  }

  function EncryptedKey(p: Provider): string {
    match p
    case Dropbox => "dropboxEncrypted"
    case Drive => "driveEncrypted"
    case OneDrive => "oneDriveEncrypted"
  }

  /** Only Drive and OneDrive hold a refresh token. */
  function RefreshKey(p: Provider): string
    requires p != Dropbox
  {
    if p == Drive then "driveRefreshToken" else "oneDriveRefreshToken"
  }

  const FolderKey := "driveFolder"
  const BusinessKey := "oneDriveBusiness"

  const NoTokenMessage := "Error: No token"
  const RevokedMessage := "Error: Access revoked or expired."
  const Unauthorized401Message :=
    "Error: Response was 401. You will be logged out the next time you open Authenticator."
  const NoEmailMessage := "Error: res.email was undefined."
  const ErrorMessage := "Error"

  // ---------------------------------------------------------------------
  // The remote side.

  /** A response body: a parsed JSON object, or text `JSON.parse` rejects. */
  datatype Body = Json(fields: Record) | ParseError

  datatype Response = Reply(status: int, body: Body) | NoResponse

  /** The requests the providers issue (URLs, headers and credentials are
      not modelled; what varies from call to call is kept). */
  datatype Request =
    | DropboxUpload(apiArg: string, content: string)
    | DropboxAccount
    | TokenProbe(provider: Provider)
    | SilentAuth
    | DriveRefresh(refreshToken: Option<Value>)
    | OneDriveRefresh(refreshToken: Option<Value>, scope: string)
    | FolderCheck(folder: Value)
    | FolderCreate
    | DriveUpload(content: string)
    | OneDriveUpload(fileName: string, content: string)
    | AccountInfo(provider: Provider)

  predicate IsUpload(r: Request) {
    r.DropboxUpload? || r.DriveUpload? || r.OneDriveUpload?
  }

  /** The request a refresh of provider `p` starts with. */
  predicate IsRefresh(p: Provider, silent: bool, r: Request) {
    match p
    case Dropbox => false
    case Drive => if silent then r.SilentAuth? else r.DriveRefresh?
    case OneDrive => r.OneDriveRefresh?
  }

  /** Replies still to come, answers of the non-interactive token request
      still to come, and every request issued so far. */
  datatype Net = Net(replies: seq<Response>, grants: seq<Option<string>>, sent: seq<Request>)

  /** Issue `req` and take its reply. */
  function Send(net: Net, req: Request): (Response, Net) {
    if net.replies == [] then (NoResponse, Net([], net.grants, net.sent + [req]))
    else (net.replies[0], Net(net.replies[1..], net.grants, net.sent + [req]))
  }

  /** `chrome.identity.getAuthToken({interactive: false})`: None when the
      callback never fires, otherwise the token it passes (maybe none). */
  function Grant(net: Net): (Option<Option<string>>, Net) {
    if net.grants == [] then (None, Net(net.replies, [], net.sent + [SilentAuth]))
    else (Some(net.grants[0]), Net(net.replies, net.grants[1..], net.sent + [SilentAuth]))
  }

  /** `res.error.code === c` */
  predicate ErrorCodeIs(f: Record, c: int) {
    "error" in f && f["error"].Obj? && Lookup(f["error"].fields, "code") == Some(Num(c))
  }

  /** The outcome of a flow, the store contents and the remote side after it. */
  datatype Step<+T> = Step(out: Outcome<T>, st: Storage, net: Net)

  /** What `getUser` reports: an account identifier, or an error text. */
  datatype UserInfo = Account(id: Option<Value>) | Failure(message: string)

  // ---------------------------------------------------------------------
  // Record edits.

  /** Token gone, credential marked revoked (Dropbox on a 401). */
  function RevokeAccess(snap: Record, p: Provider): Record {
    (snap - {TokenKey(p)})[RevokedKey(p) := Bool(true)]
  }

  /** Refresh token gone, credential marked revoked (refused grant). */
  function RevokeRefresh(snap: Record, p: Provider): Record
    requires p != Dropbox
  {
    (snap - {RefreshKey(p)})[RevokedKey(p) := Bool(true)]
  }

  /** The encrypt-on-backup default: an unset flag becomes `true`. */
  function WithEncryptDefault(snap: Record, p: Provider): Record {
    if EncryptedKey(p) in snap then snap else snap[EncryptedKey(p) := Bool(true)]
  }

  /** The first step of every upload: the snapshot with the default filled
      in, and the store after it; Dropbox and Drive persist the default,
      OneDrive only sets it on its copy. */
  function Defaulted(st: Storage, keys: set<string>, p: Provider): (Record, Storage) {
    var snap := AllItems(st);
    if EncryptedKey(p) in snap then (snap, st)
    else
      var snap' := WithEncryptDefault(snap, p);
      (snap', if p == OneDrive then st else Written(st, keys, snap'))
  }

  /** `userSettings.<p>Encrypted === true`: whether the export is encrypted. */
  predicate EncryptFlag(snap: Record, p: Provider) {
    Lookup(snap, EncryptedKey(p)) == Some(Bool(true))
  }

  // ---------------------------------------------------------------------
  // Tokens.

  /** `userSettings.dropboxToken || ""` */
  function DropboxTokenOf(snap: Record): Value {
    if TruthyAt(snap, TokenKey(Dropbox)) then snap[TokenKey(Dropbox)] else Str("")
  }

  /** The refresh-token grant (Drive's fallback path and OneDrive). */
  function RefreshGrant(st: Storage, keys: set<string>, net: Net, p: Provider): Step<bool>
    requires p != Dropbox
  {
    var snap := AllItems(st);
    var req :=
      if p == Drive then DriveRefresh(Lookup(snap, RefreshKey(p)))
      else OneDriveRefresh(Lookup(snap, RefreshKey(p)),
                           OneDriveScope(Lookup(snap, BusinessKey) == Some(Bool(true))));
    var (resp, net1) := Send(net, req);
    match resp
    case NoResponse => Step(Pending, st, net1)
    case Reply(status, body) =>
      if status == 401 then Step(Resolved(false), Written(st, keys, RevokeRefresh(snap, p)), net1)
      else match body
        case ParseError => Step(Rejected, st, net1)
        case Json(f) =>
          if TruthyAt(f, "error") then
            if f["error"] == Str("invalid_grant")
            then Step(Resolved(false), Written(st, keys, RevokeRefresh(snap, p)), net1)
            else Step(Resolved(false), st, net1)
          else Step(Resolved(true), Written(st, keys, Assign(snap, TokenKey(p), Lookup(f, "access_token"))), net1)
  }

  /** Drive's refresh through the browser's non-interactive token request. */
  function SilentRefresh(st: Storage, keys: set<string>, net: Net): Step<bool> {
    var snap := AllItems(st);
    var (granted, net1) := Grant(net);
    match granted
    case None => Step(Pending, st, net1)
    case Some(token) =>
      var value := if token.Some? then Some(Str(token.value)) else None;
      var snap1 := Assign(snap, TokenKey(Drive), value);
      var snap2 := if Present(value) then snap1 else snap1[RevokedKey(Drive) := Bool(true)];
      Step(Resolved(Present(value)), Written(st, keys, snap2), net1)
  }

  /** `refreshToken()`: Drive prefers the browser when it can ask it. */
  function Refresh(st: Storage, keys: set<string>, net: Net, p: Provider, silent: bool): Step<bool>
    requires p != Dropbox
  {
    if p == Drive && silent then SilentRefresh(st, keys, net) else RefreshGrant(st, keys, net, p)
  }

  /** `await this.refreshToken(); return userSettings.<p>Token;` */
  function AfterRefresh(s: Step<bool>, token: Option<Value>): Step<Option<Value>> {
    match s.out
    case Resolved(_) => Step(Resolved(token), s.st, s.net)
    case Rejected => Step(Rejected, s.st, s.net)
    case Pending => Step(Pending, s.st, s.net)
  }

  /** `getToken()`. Dropbox reads its token. Drive and OneDrive refresh
      when no token is cached; otherwise they probe it, and a probe that
      reports error 401 clears the token and refreshes once. The token
      returned is always the one in this call's own snapshot. */
  function GetToken(st: Storage, keys: set<string>, net: Net, p: Provider, silent: bool): Step<Option<Value>> {
    var snap := AllItems(st);
    if p == Dropbox then Step(Resolved(Some(DropboxTokenOf(snap))), st, net)
    else if !TruthyAt(snap, TokenKey(p)) then
      AfterRefresh(Refresh(st, keys, net, p, silent), Lookup(snap, TokenKey(p)))
    else
      var (resp, net1) := Send(net, TokenProbe(p));
      match resp
      case NoResponse => Step(Pending, st, net1)
      case Reply(_, ParseError) => Step(Rejected, st, net1)
      case Reply(_, Json(f)) =>
        if !TruthyAt(f, "error") then Step(Resolved(Lookup(snap, TokenKey(p))), st, net1)
        else if ErrorCodeIs(f, 401) then
          var snap1 := snap - {TokenKey(p)};
          AfterRefresh(Refresh(Written(st, keys, snap1), keys, net1, p, silent), None)
        else Step(Pending, st, net1)
  }

  // ---------------------------------------------------------------------
  // Drive folder.

  /** The check of a cached folder id: 404 and `trashed` clear it, 401
      clears the token; the result is the snapshot as the check leaves it. */
  function CheckFolder(st: Storage, keys: set<string>, net: Net, snap: Record): Step<Record> {
    if !TruthyAt(snap, FolderKey) then Step(Resolved(snap), st, net)
    else
      var (resp, net1) := Send(net, FolderCheck(snap[FolderKey]));
      match resp
      case NoResponse => Step(Pending, st, net1)
      case Reply(status, body) =>
        if status == 401 then
          var s := snap - {TokenKey(Drive)};
          Step(Resolved(s), Written(st, keys, s), net1)
        else match body
          case ParseError => Step(Rejected, st, net1)
          case Json(f) =>
            if TruthyAt(f, "error") then
              if ErrorCodeIs(f, 404) then
                var s := snap - {FolderKey};
                Step(Resolved(s), Written(st, keys, s), net1)
              else Step(Pending, st, net1)
            else if TruthyAt(f, "trashed") then
              var s := snap - {FolderKey};
              Step(Resolved(s), Written(st, keys, s), net1)
            else Step(Resolved(snap), st, net1)
  }

  /** Folder creation when the snapshot holds no folder id; the result is
      the snapshot's folder id afterwards. */
  function CreateFolder(st: Storage, keys: set<string>, net: Net, snap: Record): Step<Option<Value>> {
    if TruthyAt(snap, FolderKey) then Step(Resolved(Lookup(snap, FolderKey)), st, net)
    else
      var (resp, net1) := Send(net, FolderCreate);
      match resp
      case NoResponse => Step(Pending, st, net1)
      case Reply(status, body) =>
        if status == 401 then
          var s := snap - {TokenKey(Drive)};
          Step(Resolved(Lookup(s, FolderKey)), Written(st, keys, s), net1)
        else match body
          case ParseError => Step(Rejected, st, net1)
          case Json(f) =>
            if !TruthyAt(f, "error") then
              var s := Assign(snap, FolderKey, Lookup(f, "id"));
              Step(Resolved(Lookup(s, FolderKey)), Written(st, keys, s), net1)
            else Step(Resolved(Lookup(snap, FolderKey)), st, net1)
  }

  /** The part of `getFolder()` after the token: read a snapshot, check the
      cached id, create a folder when there is none. */
  function EnsureFolder(st: Storage, keys: set<string>, net: Net): Step<Option<Value>> {
    var c := CheckFolder(st, keys, net, AllItems(st));
    match c.out
    case Resolved(snap) => CreateFolder(c.st, keys, c.net, snap)
    case Rejected => Step(Rejected, c.st, c.net)
    case Pending => Step(Pending, c.st, c.net)
  }

  /** `getFolder()`: `false` without a token, else the folder id. */
  function GetFolder(st: Storage, keys: set<string>, net: Net, silent: bool): Step<Option<Value>> {
    var t := GetToken(st, keys, net, Drive, silent);
    match t.out
    case Rejected => Step(Rejected, t.st, t.net)
    case Pending => Step(Pending, t.st, t.net)
    case Resolved(token) =>
      if !Present(token) then Step(Resolved(Some(Bool(false))), t.st, t.net)
      else EnsureFolder(t.st, keys, t.net)
  }

  // ---------------------------------------------------------------------
  // Uploads. `exportOf(encrypted)` is the backup text the export
  // collaborator yields; `iso` is the clock's ISO-8601 text.

  function DropboxUploadFlow(st: Storage, keys: set<string>, net: Net,
                             exportOf: bool -> string, iso: string): Step<bool> {
    var (snap, st1) := Defaulted(st, keys, Dropbox);
    var backup := exportOf(EncryptFlag(snap, Dropbox));
    var token := DropboxTokenOf(AllItems(st1));
    if !Truthy(token) then Step(Resolved(false), st1, net)
    else
      var (resp, net1) := Send(net, DropboxUpload(DropboxApiArg(iso), backup));
      match resp
      case NoResponse => Step(Pending, st1, net1)
      case Reply(status, body) =>
        if status == 401 then Step(Resolved(false), Written(st1, keys, RevokeAccess(snap, Dropbox)), net1)
        else match body
          case ParseError => Step(Rejected, st1, net1)
          case Json(f) => Step(Resolved(TruthyAt(f, "name")), st1, net1)
  }

  function DriveUploadFlow(st: Storage, keys: set<string>, net: Net, silent: bool,
                           exportOf: bool -> string, iso: string): Step<bool> {
    var (snap, st1) := Defaulted(st, keys, Drive);
    var backup := exportOf(EncryptFlag(snap, Drive));
    var t := GetToken(st1, keys, net, Drive, silent);
    match t.out
    case Rejected => Step(Rejected, t.st, t.net)
    case Pending => Step(Pending, t.st, t.net)
    case Resolved(token) =>
      if !Present(token) then Step(Resolved(false), t.st, t.net)
      else
        var g := GetFolder(t.st, keys, t.net, silent);
        match g.out
        case Rejected => Step(Rejected, g.st, g.net)
        case Pending => Step(Pending, g.st, g.net)
        case Resolved(folderId) =>
          if !Present(folderId) then Step(Resolved(false), g.st, g.net)
          else DriveSendBackup(g.st, keys, g.net, snap, Lines(DriveRequestLines(iso, Lookup(snap, FolderKey), backup)))
  }

  /** The multipart upload request of Drive and its reply; a 401 clears
      the token from `snap`, the copy the caller read, and writes it back. */
  function DriveSendBackup(st: Storage, keys: set<string>, net: Net, snap: Record, content: string): Step<bool> {
    var (resp, net1) := Send(net, DriveUpload(content));
    match resp
    case NoResponse => Step(Pending, st, net1)
    case Reply(status, body) =>
      if status == 401 then Step(Resolved(false), Written(st, keys, snap - {TokenKey(Drive)}), net1)
      else match body
        case ParseError => Step(Rejected, st, net1)
        case Json(f) => Step(Resolved(!TruthyAt(f, "error")), st, net1)
  }

  function OneDriveUploadFlow(st: Storage, keys: set<string>, net: Net,
                              exportOf: bool -> string, iso: string): Step<bool> {
    var (snap, st1) := Defaulted(st, keys, OneDrive);
    var backup := exportOf(EncryptFlag(snap, OneDrive));
    var t := GetToken(st1, keys, net, OneDrive, false);
    match t.out
    case Rejected => Step(Rejected, t.st, t.net)
    case Pending => Step(Pending, t.st, t.net)
    case Resolved(token) =>
      if !Present(token) then Step(Resolved(false), t.st, t.net)
      else
        var (resp, net1) := Send(t.net, OneDriveUpload(BackupFileName(iso), backup));
        match resp
        case NoResponse => Step(Pending, t.st, net1)
        case Reply(status, body) =>
          if status == 401 then
            // removeItem is not awaited: its failure does not change the result
            var removed := Removed(t.st, keys, TokenKey(OneDrive));
            Step(Resolved(false), if removed.Some? then removed.value else t.st, net1)
          else match body
            case ParseError => Step(Rejected, t.st, net1)
            case Json(f) => Step(Resolved(!TruthyAt(f, "error")), t.st, net1)
  }

  // ---------------------------------------------------------------------
  // Account identity.

  function DropboxUserFlow(st: Storage, keys: set<string>, net: Net): Step<UserInfo> {
    var snap := AllItems(st);
    if !Truthy(DropboxTokenOf(snap)) then Step(Resolved(Failure(NoTokenMessage)), st, net)
    else
      var (resp, net1) := Send(net, DropboxAccount);
      match resp
      case NoResponse => Step(Pending, st, net1)
      case Reply(status, body) =>
        if status == 401 then
          Step(Resolved(Failure(Unauthorized401Message)), Written(st, keys, RevokeAccess(snap, Dropbox)), net1)
        else match body
          case ParseError => Step(Resolved(Failure(ErrorMessage)), st, net1)
          case Json(f) =>
            if TruthyAt(f, "email") then Step(Resolved(Account(Some(f["email"]))), st, net1)
            else Step(Resolved(Failure(NoEmailMessage)), st, net1)
  }

  /** `res.user.emailAddress`, where reading a property of a missing or
      null `user` throws and is reported as "Error". */
  function DriveAccount(f: Record): UserInfo {
    match Lookup(f, "user")
    case None => Failure(ErrorMessage)
    case Some(Null) => Failure(ErrorMessage)
    case Some(Obj(m)) => Account(Lookup(m, "emailAddress"))
    case Some(_) => Account(None)
  }

  /** Drive and OneDrive `getUser()`. */
  function GraphUserFlow(st: Storage, keys: set<string>, net: Net, p: Provider, silent: bool): Step<UserInfo>
    requires p != Dropbox
  {
    var t := GetToken(st, keys, net, p, silent);
    match t.out
    case Rejected => Step(Rejected, t.st, t.net)
    case Pending => Step(Pending, t.st, t.net)
    case Resolved(token) =>
      if !Present(token) then Step(Resolved(Failure(RevokedMessage)), t.st, t.net)
      else
        var snap := AllItems(t.st);
        var (resp, net1) := Send(t.net, AccountInfo(p));
        match resp
        case NoResponse => Step(Pending, t.st, net1)
        case Reply(status, body) =>
          if status == 401 then
            Step(Resolved(Failure(Unauthorized401Message)), Written(t.st, keys, snap - {TokenKey(p)}), net1)
          else match body
            case ParseError => Step(Resolved(Failure(ErrorMessage)), t.st, net1)
            case Json(f) =>
              if TruthyAt(f, "error") then Step(Resolved(Failure(ErrorMessage)), t.st, net1)
              else if p == Drive then Step(Resolved(DriveAccount(f)), t.st, net1)
              else Step(Resolved(Account(Lookup(f, "userPrincipalName"))), t.st, net1)
  }

  // ---------------------------------------------------------------------
  // The provider interface: `upload()` and `getUser()` of each provider.

  function UploadFlow(st: Storage, keys: set<string>, net: Net, p: Provider, silent: bool,
                      exportOf: bool -> string, iso: string): Step<bool> {
    match p
    case Dropbox => DropboxUploadFlow(st, keys, net, exportOf, iso)
    case Drive => DriveUploadFlow(st, keys, net, silent, exportOf, iso)
    case OneDrive => OneDriveUploadFlow(st, keys, net, exportOf, iso)
  }

  function UserFlow(st: Storage, keys: set<string>, net: Net, p: Provider, silent: bool): Step<UserInfo> {
    if p == Dropbox then DropboxUserFlow(st, keys, net) else GraphUserFlow(st, keys, net, p, silent)
  }
}
