/** Two places where the backup flows as written depart from what they
    evidently intend, each shown on an input and paired with the corrected
    definition and its property.

    1. `getToken` returns the token of the snapshot it read before
       refreshing, so a token obtained by a refresh is never returned.
    2. The Drive upload keeps using the snapshot it read before `getFolder`
       ran: the upload names the folder id that snapshot held, and its 401
       branch writes that snapshot back over the folder id `getFolder`
       cached. */
module BackupFindings {
  import opened Values
  import opened Settings
  import opened BackupFormat
  import opened BackupFlows
  import opened BackupProperties

  // ---------------------------------------------------------------------
  // The refreshed token.

  /** As written: with no token cached and the refresh grant accepted, the
      store holds the new access token, yet `getToken` resolves with no
      token, so the upload that asked for it resolves false. */
  lemma AsWrittenRefreshedTokenDiscarded(st: Storage, keys: set<string>, net: Net, p: Provider, silent: bool,
                                         exportOf: bool -> string, iso: string)
    requires p != Dropbox && (p == OneDrive || !silent) && Coherent(st, keys)
    requires !TruthyAt(AllItems(st), TokenKey(p))
    requires JsonReply(NextReply(net)) && !HasError(NextReply(net))
    requires TruthyAt(NextReply(net).body.fields, "access_token")
    ensures var t := GetToken(st, keys, net, p, silent);
      && t.out == Resolved(Lookup(AllItems(st), TokenKey(p)))
      && !Present(t.out.value)
      && Present(Lookup(AllItems(t.st), TokenKey(p)))
      && Lookup(AllItems(t.st), TokenKey(p)) == Lookup(NextReply(net).body.fields, "access_token")
    ensures UploadFlow(st, keys, net, p, silent, exportOf, iso).out != Resolved(true)
  {
    RefreshGrantOutcomes(st, keys, net, p);
    NoTokenNoUpload(st, keys, net, p, silent, exportOf, iso);
  }

  /** After a refresh, return the token the store then holds. */
  function AfterFreshRefresh(s: Step<bool>, p: Provider): Step<Option<Value>> {
    match s.out
    case Resolved(_) => Step(Resolved(Lookup(AllItems(s.st), TokenKey(p))), s.st, s.net)
    case Rejected => Step(Rejected, s.st, s.net)
    case Pending => Step(Pending, s.st, s.net)
  }

  /** `getToken` as evidently intended (Drive and OneDrive): the same
      requests and writes, returning the refreshed token. */
  function IntendedGetToken(st: Storage, keys: set<string>, net: Net, p: Provider, silent: bool): Step<Option<Value>>
    requires p != Dropbox
  {
    var snap := AllItems(st);
    if !TruthyAt(snap, TokenKey(p)) then AfterFreshRefresh(Refresh(st, keys, net, p, silent), p)
    else
      var (resp, net1) := Send(net, TokenProbe(p));
      match resp
      case NoResponse => Step(Pending, st, net1)
      case Reply(_, ParseError) => Step(Rejected, st, net1)
      case Reply(_, Json(f)) =>
        if !TruthyAt(f, "error") then Step(Resolved(Lookup(snap, TokenKey(p))), st, net1)
        else if ErrorCodeIs(f, 401) then
          AfterFreshRefresh(Refresh(Written(st, keys, snap - {TokenKey(p)}), keys, net1, p, silent), p)
        else Step(Pending, st, net1)
  }

  /** The corrected `getToken` issues the same requests and makes the same
      writes, and always returns the token the store holds afterwards; an
      accepted grant is returned at once. */
  lemma IntendedGetTokenReturnsStored(st: Storage, keys: set<string>, net: Net, p: Provider, silent: bool)
    requires p != Dropbox
    ensures var t := IntendedGetToken(st, keys, net, p, silent);
      && t.st == GetToken(st, keys, net, p, silent).st
      && t.net == GetToken(st, keys, net, p, silent).net
      && (t.out.Resolved? <==> GetToken(st, keys, net, p, silent).out.Resolved?)
      && (t.out.Resolved? ==> t.out.value == Lookup(AllItems(t.st), TokenKey(p)))
  {
    var snap := AllItems(st);
    var t := IntendedGetToken(st, keys, net, p, silent);
    if !TruthyAt(snap, TokenKey(p)) {
      var r := Refresh(st, keys, net, p, silent);
      assert t == AfterFreshRefresh(r, p);
      assert GetToken(st, keys, net, p, silent) == AfterRefresh(r, Lookup(snap, TokenKey(p)));
    } else {
      var (resp, net1) := Send(net, TokenProbe(p));
      if resp.Reply? && resp.body.Json? && TruthyAt(resp.body.fields, "error") && ErrorCodeIs(resp.body.fields, 401) {
        var r := Refresh(Written(st, keys, snap - {TokenKey(p)}), keys, net1, p, silent);
        assert t == AfterFreshRefresh(r, p);
        assert GetToken(st, keys, net, p, silent) == AfterRefresh(r, None);
      }
    }
  }

  lemma IntendedGetTokenAfterGrant(st: Storage, keys: set<string>, net: Net, p: Provider, silent: bool)
    requires p != Dropbox && (p == OneDrive || !silent) && Coherent(st, keys)
    requires !TruthyAt(AllItems(st), TokenKey(p))
    requires JsonReply(NextReply(net)) && !HasError(NextReply(net))
    ensures IntendedGetToken(st, keys, net, p, silent).out == Resolved(Lookup(NextReply(net).body.fields, "access_token"))
  {
    RefreshGrantOutcomes(st, keys, net, p);
  }

  // ---------------------------------------------------------------------
  // The Drive upload's snapshot.

  /** The scenario of both Drive lemmas below: a token and a folder id are
      cached; both probes accept the token; the folder check reports 404;
      the new folder gets a truthy id different from the cached one; the
      upload then gets a 401 or a reply whose body parses. */
  predicate ReplacedFolderScenario(st: Storage, keys: set<string>, net: Net) {
    && Coherent(st, keys)
    && TruthyAt(AllItems(st), TokenKey(Drive)) && TruthyAt(AllItems(st), FolderKey)
    && |net.replies| >= 5
    && JsonReply(net.replies[0]) && !HasError(net.replies[0])
    && JsonReply(net.replies[1]) && !HasError(net.replies[1])
    && JsonReply(net.replies[2]) && ErrorCodeIs(net.replies[2].body.fields, 404)
    && JsonReply(net.replies[3]) && !HasError(net.replies[3]) && TruthyAt(net.replies[3].body.fields, "id")
    && Lookup(net.replies[3].body.fields, "id") != Lookup(AllItems(st), FolderKey)
    && (Unauthorized(net.replies[4]) || JsonReply(net.replies[4]))
  }

  /** The token and folder steps of the scenario, shared by both flows. */
  lemma ScenarioFolderStep(st: Storage, keys: set<string>, net: Net, silent: bool)
    requires ReplacedFolderScenario(st, keys, net)
    ensures var (snap, st1) := Defaulted(st, keys, Drive);
      var t := GetToken(st1, keys, net, Drive, silent);
      && t.out == Resolved(Lookup(AllItems(st), TokenKey(Drive))) && Present(t.out.value)
      && t.st == st1
      && var g := GetFolder(t.st, keys, t.net, silent);
         && g.out == Resolved(Lookup(net.replies[3].body.fields, "id")) && Present(g.out.value)
         && Lookup(AllItems(g.st), FolderKey) == g.out.value
         && AgreeExcept(AllItems(g.st), snap, {FolderKey})
         && Keeps(st, g.st, keys)
         && g.net.replies == net.replies[4..]
         && Extends(net, g.net)
         && Issued(net, g.net) == [TokenProbe(Drive), TokenProbe(Drive), FolderCheck(AllItems(st)[FolderKey]), FolderCreate]
  {
    EncryptByDefault(st, keys, Drive);
    var (snap, st1) := Defaulted(st, keys, Drive);
    assert TruthyAt(AllItems(st1), TokenKey(Drive)) && TruthyAt(AllItems(st1), FolderKey);
    var net1 := Send(net, TokenProbe(Drive)).1;
    SendIssues(net, TokenProbe(Drive));
    ProbeAccepted(st1, keys, net, Drive, silent);
    assert NextReply(net1) == net.replies[1];
    var net2 := Send(net1, TokenProbe(Drive)).1;
    SendIssues(net1, TokenProbe(Drive));
    GetFolderWithToken(st1, keys, net1, silent);
    assert net2.replies == net.replies[2..];
    StaleFolderReplaced(st1, keys, net2);
    FolderStepFacts(st, keys, snap, st1, net, net1, net2, EnsureFolder(st1, keys, net2));
  }

  lemma FolderStepFacts(st: Storage, keys: set<string>, snap: Record, st1: Storage,
                        net: Net, net1: Net, net2: Net, g: Step<Option<Value>>)
    requires |net.replies| >= 4 && JsonReply(net.replies[3]) && net2.replies == net.replies[2..]
    requires AllItems(st1) == snap && Keeps(st, st1, keys)
    requires FolderKey in AllItems(st) && FolderKey in snap && snap[FolderKey] == AllItems(st)[FolderKey]
    requires Extends(net, net1) && Issued(net, net1) == [TokenProbe(Drive)]
    requires Extends(net1, net2) && Issued(net1, net2) == [TokenProbe(Drive)]
    requires var id := Lookup(net2.replies[1].body.fields, "id");
      && g.out == Resolved(id)
      && Lookup(AllItems(g.st), FolderKey) == id
      && AgreeExcept(AllItems(g.st), AllItems(st1), {FolderKey})
      && Keeps(st1, g.st, keys)
      && Extends(net2, g.net)
      && Issued(net2, g.net) == [FolderCheck(AllItems(st1)[FolderKey]), FolderCreate]
      && g.net.replies == net2.replies[2..]
    ensures g.out == Resolved(Lookup(net.replies[3].body.fields, "id"))
    ensures Lookup(AllItems(g.st), FolderKey) == g.out.value
    ensures AgreeExcept(AllItems(g.st), snap, {FolderKey})
    ensures Keeps(st, g.st, keys)
    ensures g.net.replies == net.replies[4..]
    ensures Extends(net, g.net)
    ensures Issued(net, g.net) == [TokenProbe(Drive), TokenProbe(Drive), FolderCheck(AllItems(st)[FolderKey]), FolderCreate]
  {
    IssuedConcat(net, net1, net2);
    IssuedConcat(net, net2, g.net);
  }

  /** As written: the upload names the folder id the check just reported
      missing. On a parsed reply the store keeps the new id the request did
      not name; on a 401 the write-back of the upload's snapshot puts the
      missing id back and loses the new one. */
  lemma AsWrittenDriveUploadUsesStaleFolder(st: Storage, keys: set<string>, net: Net, silent: bool,
                                            exportOf: bool -> string, iso: string)
    requires ReplacedFolderScenario(st, keys, net)
    ensures var r := DriveUploadFlow(st, keys, net, silent, exportOf, iso);
      var stale := Lookup(AllItems(st), FolderKey);
      var created := Lookup(net.replies[3].body.fields, "id");
      var backup := exportOf(EncryptFlag(WithEncryptDefault(AllItems(st), Drive), Drive));
      && Extends(net, r.net) && |Issued(net, r.net)| == 5
      && Issued(net, r.net)[4] == DriveUpload(Lines(DriveRequestLines(iso, stale, backup)))
      && (JsonReply(net.replies[4]) ==> Lookup(AllItems(r.st), FolderKey) == created)
      && (Unauthorized(net.replies[4]) ==>
            r.out == Resolved(false) && Lookup(AllItems(r.st), FolderKey) == stale)
  {
    EncryptByDefault(st, keys, Drive);
    var (snap, st1) := Defaulted(st, keys, Drive);
    ScenarioFolderStep(st, keys, net, silent);
    var t := GetToken(st1, keys, net, Drive, silent);
    var g := GetFolder(t.st, keys, t.net, silent);
    assert snap == WithEncryptDefault(AllItems(st), Drive);
    assert Lookup(snap, FolderKey) == Lookup(AllItems(st), FolderKey);
    var content := Lines(DriveRequestLines(iso, Lookup(snap, FolderKey), exportOf(EncryptFlag(snap, Drive))));
    DriveUploadUnfolds(st, keys, net, silent, exportOf, iso);
    var r := DriveSendBackup(g.st, keys, g.net, snap, content);
    assert DriveUploadFlow(st, keys, net, silent, exportOf, iso) == r;
    ScenarioUpload(st, keys, net, g.st, g.net, snap, snap, content);
    assert Extends(net, r.net) && |Issued(net, r.net)| == 5;
    assert JsonReply(net.replies[4]) ==> Lookup(AllItems(r.st), FolderKey) == Lookup(net.replies[3].body.fields, "id");
  }

  /** The upload request of the scenario, after the folder step: the fifth
      request; a parsed reply writes nothing, a 401 writes back `rec`
      without the token. */
  lemma ScenarioUpload(st: Storage, keys: set<string>, net: Net, gst: Storage, gnet: Net,
                       snap: Record, rec: Record, content: string)
    requires |net.replies| >= 5 && (Unauthorized(net.replies[4]) || JsonReply(net.replies[4]))
    requires Extends(net, gnet) && |Issued(net, gnet)| == 4 && gnet.replies == net.replies[4..]
    requires snap == WithEncryptDefault(AllItems(st), Drive)
    requires AgreeExcept(AllItems(gst), snap, {FolderKey}) && Keeps(st, gst, keys)
    requires rec == snap || rec == AllItems(gst)
    ensures var r := DriveSendBackup(gst, keys, gnet, rec, content);
      && Extends(net, r.net) && |Issued(net, r.net)| == 5 && Issued(net, r.net)[4] == DriveUpload(content)
      && (JsonReply(net.replies[4]) ==> r.st == gst)
      && (Unauthorized(net.replies[4]) ==>
            r.out == Resolved(false)
            && Lookup(AllItems(r.st), FolderKey) == Lookup(rec, FolderKey))
  {
    var r := DriveSendBackup(gst, keys, gnet, rec, content);
    DriveSendBackupOutcomes(gst, keys, gnet, rec, content);
    IssuedSnoc(net, gnet, r.net, DriveUpload(content));
    assert NextReply(gnet) == net.replies[4];
    if Unauthorized(net.replies[4]) {
      assert Lookup(AllItems(gst), StorageLocationKey) == Lookup(snap, StorageLocationKey);
      WriteBack(gst, keys, rec - {TokenKey(Drive)});
      assert Lookup(rec - {TokenKey(Drive)}, FolderKey) == Lookup(rec, FolderKey);
    }
  }

  /** `upload` of Drive as evidently intended: the upload names the folder
      `getFolder` returned, and a 401 clears the token from the store as it
      is then, not from the upload's first snapshot. */
  function IntendedDriveUploadFlow(st: Storage, keys: set<string>, net: Net, silent: bool,
                                   exportOf: bool -> string, iso: string): Step<bool> {
    var (snap, st1) := Defaulted(st, keys, Drive);
    var backup := exportOf(EncryptFlag(snap, Drive));
    var t := GetToken(st1, keys, net, Drive, silent);
    match t.out
    case Rejected => Step(Rejected, t.st, t.net)
    case Pending => Step(Pending, t.st, t.net)
    case Resolved(token) =>
      if !Present(token) then Step(Resolved(false), t.st, t.net)
      else
        var g := GetFolder(t.st, keys, t.net, silent);
        match g.out
        case Rejected => Step(Rejected, g.st, g.net)
        case Pending => Step(Pending, g.st, g.net)
        case Resolved(folderId) =>
          if !Present(folderId) then Step(Resolved(false), g.st, g.net)
          else DriveSendBackup(g.st, keys, g.net, AllItems(g.st), Lines(DriveRequestLines(iso, folderId, backup)))
  }

  /** The three exits of the corrected Drive upload. */
  lemma IntendedDriveUploadUnfolds(st: Storage, keys: set<string>, net: Net, silent: bool,
                                   exportOf: bool -> string, iso: string)
    ensures var (snap, st1) := Defaulted(st, keys, Drive);
      var t := GetToken(st1, keys, net, Drive, silent);
      var r := IntendedDriveUploadFlow(st, keys, net, silent, exportOf, iso);
      && (!(t.out.Resolved? && Present(t.out.value)) ==> r.net == t.net)
      && (t.out.Resolved? && Present(t.out.value) ==>
            var g := GetFolder(t.st, keys, t.net, silent);
            && (!(g.out.Resolved? && Present(g.out.value)) ==> r.net == g.net)
            && (g.out.Resolved? && Present(g.out.value) ==>
                  r == DriveSendBackup(g.st, keys, g.net, AllItems(g.st),
                                       Lines(DriveRequestLines(iso, g.out.value, exportOf(EncryptFlag(snap, Drive)))))))
  {
  }

  /** The corrected upload always names the folder the store caches after
      the call, 401 or not. */
  lemma IntendedDriveUploadNamesCachedFolder(st: Storage, keys: set<string>, net: Net, silent: bool,
                                             exportOf: bool -> string, iso: string)
    requires Coherent(st, keys)
    ensures var r := IntendedDriveUploadFlow(st, keys, net, silent, exportOf, iso);
      var backup := exportOf(EncryptFlag(WithEncryptDefault(AllItems(st), Drive), Drive));
      && Extends(net, r.net)
      && forall i | 0 <= i < |Issued(net, r.net)| && IsUpload(Issued(net, r.net)[i]) ::
           Issued(net, r.net)[i] == DriveUpload(Lines(DriveRequestLines(iso, Lookup(AllItems(r.st), FolderKey), backup)))
  {
    EncryptByDefault(st, keys, Drive);
    var (snap, st1) := Defaulted(st, keys, Drive);
    var backup := exportOf(EncryptFlag(snap, Drive));
    var r := IntendedDriveUploadFlow(st, keys, net, silent, exportOf, iso);
    IntendedDriveUploadUnfolds(st, keys, net, silent, exportOf, iso);
    var t := GetToken(st1, keys, net, Drive, silent);
    GetTokenRequests(st1, keys, net, Drive, silent);
    TokenRequestsNoUpload(Drive, silent, Issued(net, t.net));
    if t.out.Resolved? && Present(t.out.value) {
      var g := GetFolder(t.st, keys, t.net, silent);
      GetFolderRequests(t.st, keys, t.net, silent);
      NoUploadConcat(net, t.net, g.net);
      if g.out.Resolved? && Present(g.out.value) {
        GetFolderCaches(t.st, keys, t.net, silent);
        var content := Lines(DriveRequestLines(iso, g.out.value, backup));
        DriveSendBackupOutcomes(g.st, keys, g.net, AllItems(g.st), content);
        if Unauthorized(NextReply(g.net)) {
          WriteBack(g.st, keys, AllItems(g.st) - {TokenKey(Drive)});
        }
        assert Lookup(AllItems(r.st), FolderKey) == g.out.value;
        LastUploadOnly(net, g.net, r.net, DriveUpload(content));
      }
    }
  }

  /** In the scenario, the corrected upload names the new folder and the
      store keeps it, whatever the upload's reply. */
  lemma IntendedDriveUploadUsesNewFolder(st: Storage, keys: set<string>, net: Net, silent: bool,
                                         exportOf: bool -> string, iso: string)
    requires ReplacedFolderScenario(st, keys, net)
    ensures var r := IntendedDriveUploadFlow(st, keys, net, silent, exportOf, iso);
      var created := Lookup(net.replies[3].body.fields, "id");
      var backup := exportOf(EncryptFlag(WithEncryptDefault(AllItems(st), Drive), Drive));
      && Extends(net, r.net) && |Issued(net, r.net)| == 5
      && Issued(net, r.net)[4] == DriveUpload(Lines(DriveRequestLines(iso, created, backup)))
      && Lookup(AllItems(r.st), FolderKey) == created
  {
    EncryptByDefault(st, keys, Drive);
    var (snap, st1) := Defaulted(st, keys, Drive);
    ScenarioFolderStep(st, keys, net, silent);
    var t := GetToken(st1, keys, net, Drive, silent);
    var g := GetFolder(t.st, keys, t.net, silent);
    var backup := exportOf(EncryptFlag(snap, Drive));
    var content := Lines(DriveRequestLines(iso, g.out.value, backup));
    IntendedDriveUploadUnfolds(st, keys, net, silent, exportOf, iso);
    ScenarioUpload(st, keys, net, g.st, g.net, snap, AllItems(g.st), content);
  }
}
