/** The backup page's state: for each provider, whether a token is cached
    and whether backups are encrypted. It is derived once from the settings
    and then changed only by its two mutations, which never write to the
    settings store. */
module BackupStore {
  import opened Values
  import opened Settings
  import opened BackupFlows
  import opened BackupProperties

  datatype BackupState = BackupState(
    dropboxEncrypted: bool, driveEncrypted: bool, oneDriveEncrypted: bool,
    dropboxToken: bool, driveToken: bool, oneDriveToken: bool)

  /** The initial state: `<p>Encrypted === true` and `Boolean(<p>Token)`. */
  function InitialBackup(settings: Record): BackupState {
    BackupState(
      EncryptFlag(settings, Dropbox), EncryptFlag(settings, Drive), EncryptFlag(settings, OneDrive),
      TruthyAt(settings, TokenKey(Dropbox)), TruthyAt(settings, TokenKey(Drive)), TruthyAt(settings, TokenKey(OneDrive)))
  }

  /** The provider a mutation's `service` argument names, if any. */
  function ServiceProvider(service: string): Option<Provider> {
    match service
    case "dropbox" => Some(Dropbox)
    case "drive" => Some(Drive)
    case "onedrive" => Some(OneDrive)
    case _ => None
  }

  function TokenShown(s: BackupState, p: Provider): bool {
    match p
    case Dropbox => s.dropboxToken
    case Drive => s.driveToken
    case OneDrive => s.oneDriveToken
  }

  function EncryptionShown(s: BackupState, p: Provider): bool {
    match p
    case Dropbox => s.dropboxEncrypted
    case Drive => s.driveEncrypted
    case OneDrive => s.oneDriveEncrypted
  }

  class Backup {
    var dropboxEncrypted: bool
    var driveEncrypted: bool
    var oneDriveEncrypted: bool
    var dropboxToken: bool
    var driveToken: bool
    var oneDriveToken: bool

    function State(): BackupState
      reads this
    {
      BackupState(dropboxEncrypted, driveEncrypted, oneDriveEncrypted, dropboxToken, driveToken, oneDriveToken)
    }

    /** `getModule()` over the settings it reads. */
    constructor (store: UserSettings)
      ensures State() == InitialBackup(AllItems(store.State()))
    {
      var userSettings := AllItems(store.State());
      dropboxEncrypted := Lookup(userSettings, EncryptedKey(Dropbox)) == Some(Bool(true));
      driveEncrypted := Lookup(userSettings, EncryptedKey(Drive)) == Some(Bool(true));
      oneDriveEncrypted := Lookup(userSettings, EncryptedKey(OneDrive)) == Some(Bool(true));
      dropboxToken := TruthyAt(userSettings, TokenKey(Dropbox));
      driveToken := TruthyAt(userSettings, TokenKey(Drive));
      oneDriveToken := TruthyAt(userSettings, TokenKey(OneDrive));
    }

    /** `setToken({service, value})`: only the named provider's token flag
        changes; an unknown service changes nothing. */
    method SetToken(service: string, value: bool)
      modifies this
      ensures ServiceProvider(service) == Some(Dropbox) ==> State() == old(State()).(dropboxToken := value)
      ensures ServiceProvider(service) == Some(Drive) ==> State() == old(State()).(driveToken := value)
      ensures ServiceProvider(service) == Some(OneDrive) ==> State() == old(State()).(oneDriveToken := value)
      ensures ServiceProvider(service) == None ==> State() == old(State())
    {
      if service == "dropbox" {
        dropboxToken := value;
      } else if service == "drive" {
        driveToken := value;
      } else if service == "onedrive" {
        oneDriveToken := value;
      }
    }

    /** `setEnc({service, value})`: only the named provider's encryption
        flag changes; an unknown service changes nothing. */
    method SetEnc(service: string, value: bool)
      modifies this
      ensures ServiceProvider(service) == Some(Dropbox) ==> State() == old(State()).(dropboxEncrypted := value)
      ensures ServiceProvider(service) == Some(Drive) ==> State() == old(State()).(driveEncrypted := value)
      ensures ServiceProvider(service) == Some(OneDrive) ==> State() == old(State()).(oneDriveEncrypted := value)
      ensures ServiceProvider(service) == None ==> State() == old(State())
    {
      if service == "dropbox" {
        dropboxEncrypted := value;
      } else if service == "drive" {
        driveEncrypted := value;
      } else if service == "onedrive" {
        oneDriveEncrypted := value;
      }
    }
  }

  // ---------------------------------------------------------------------
  // The page's flags against what the providers do.

  /** When the page shows no token for a provider, an upload to it does
      not succeed and issues no upload request. */
  lemma TokenFlagGuardsUpload(st: Storage, keys: set<string>, net: Net, p: Provider, silent: bool,
                              exportOf: bool -> string, iso: string)
    requires Coherent(st, keys)
    requires !TokenShown(InitialBackup(AllItems(st)), p)
    ensures var r := UploadFlow(st, keys, net, p, silent, exportOf, iso);
      && r.out != Resolved(true) && Extends(net, r.net)
      && forall i | 0 <= i < |Issued(net, r.net)| :: !IsUpload(Issued(net, r.net)[i])
  {
    NoTokenNoUpload(st, keys, net, p, silent, exportOf, iso);
  }

  /** Once a Dropbox upload is refused with 401, a freshly loaded page
      shows no Dropbox token and leaves the other flags as they were. */
  lemma RevokedDropboxShownLoggedOut(st: Storage, keys: set<string>, net: Net, exportOf: bool -> string, iso: string)
    requires Coherent(st, keys)
    requires TruthyAt(AllItems(st), TokenKey(Dropbox))
    requires Unauthorized(NextReply(net))
    ensures var before := InitialBackup(WithEncryptDefault(AllItems(st), Dropbox));
      InitialBackup(AllItems(DropboxUploadFlow(st, keys, net, exportOf, iso).st)) == before.(dropboxToken := false)
  {
    DropboxUpload401Revokes(st, keys, net, exportOf, iso);
    ShownAfterRevoke(AllItems(DropboxUploadFlow(st, keys, net, exportOf, iso).st), WithEncryptDefault(AllItems(st), Dropbox));
  }

  /** Settings that differ from `snap` only by a cleared Dropbox token and
      the revoked mark show as `snap` does, logged out of Dropbox. */
  lemma ShownAfterRevoke(after: Record, snap: Record)
    requires Lookup(after, TokenKey(Dropbox)) == None
    requires AgreeExcept(after, snap, {TokenKey(Dropbox), RevokedKey(Dropbox)})
    ensures InitialBackup(after) == InitialBackup(snap).(dropboxToken := false)
  {
    assert Lookup(after, EncryptedKey(Dropbox)) == Lookup(snap, EncryptedKey(Dropbox));
    assert Lookup(after, EncryptedKey(Drive)) == Lookup(snap, EncryptedKey(Drive));
    assert Lookup(after, EncryptedKey(OneDrive)) == Lookup(snap, EncryptedKey(OneDrive));
    assert Lookup(after, TokenKey(Drive)) == Lookup(snap, TokenKey(Drive));
    assert Lookup(after, TokenKey(OneDrive)) == Lookup(snap, TokenKey(OneDrive));
  }

  /** With the flag unset, the page shows encryption off while an upload
      encrypts; after a Dropbox or Drive upload has persisted the default,
      the page shows it on. OneDrive never persists it, so the page keeps
      showing it off. */
  lemma EncryptionShownAfterDefault(st: Storage, keys: set<string>, p: Provider)
    requires Coherent(st, keys)
    requires EncryptedKey(p) !in AllItems(st)
    ensures !EncryptionShown(InitialBackup(AllItems(st)), p)
    ensures EncryptFlag(Defaulted(st, keys, p).0, p)
    ensures EncryptionShown(InitialBackup(AllItems(Defaulted(st, keys, p).1)), p) <==> p != OneDrive
  {
    EncryptByDefault(st, keys, p);
  }
}
