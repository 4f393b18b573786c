/** What the backup providers promise, stated over the flow functions of
    module BackupFlows: which requests a call issues, how each class of
    reply moves the credential, and what the store reads afterwards. */
module BackupProperties {
  import opened Values
  import opened Settings
  import opened SettingsProperties
  import opened BackupFormat
  import opened BackupFlows

  // ---------------------------------------------------------------------
  // Snapshots written back.

  /** A store whose whole-record writes read back: in Sync mode the
      preference itself is one of the local-only keys. */
  predicate Coherent(st: Storage, keys: set<string>) {
    Mode(st) == Sync ==> IsLocalOnly(keys, StorageLocationKey)
  }

  /** `st2` is coherent and reads the same storage preference as `st`. */
  predicate Keeps(st: Storage, st2: Storage, keys: set<string>) {
    Coherent(st2, keys) && Lookup(AllItems(st2), StorageLocationKey) == Lookup(AllItems(st), StorageLocationKey)
  }

  /** `a` and `b` agree on every key outside `changed`. */
  ghost predicate AgreeExcept(a: Record, b: Record, changed: set<string>) {
    forall k :: k !in changed ==> Lookup(a, k) == Lookup(b, k)
  }

  /** A snapshot carries the mode of the store it was read from. */
  lemma SnapshotMode(st: Storage)
    ensures ModeOf(AllItems(st)) == Mode(st)
  {
    if Mode(st) == Sync {
      assert Lookup(AllItems(st), StorageLocationKey) == Lookup(st.local, StorageLocationKey);
    }
  }

  /** Writing back an edited snapshot that keeps the storage preference:
      the store then reads exactly that record and stays coherent. */
  lemma WriteBack(st: Storage, keys: set<string>, rec: Record)
    requires Coherent(st, keys)
    requires Lookup(rec, StorageLocationKey) == Lookup(AllItems(st), StorageLocationKey)
    ensures AllItems(Written(st, keys, rec)) == rec
    ensures Keeps(st, Written(st, keys, rec), keys)
  {
    SnapshotMode(st);
    assert ModeOf(rec) == ModeOf(AllItems(st));
    RoundTrip(st, keys, rec);
    SnapshotMode(Written(st, keys, rec));
  }

  // ---------------------------------------------------------------------
  // Requests issued.

  /** `n1` is `n0` after some further requests. */
  predicate Extends(n0: Net, n1: Net) {
    |n0.sent| <= |n1.sent| && n1.sent[..|n0.sent|] == n0.sent
  }

  /** The requests issued between `n0` and `n1`. */
  function Issued(n0: Net, n1: Net): seq<Request>
    requires Extends(n0, n1)
  {
    n1.sent[|n0.sent|..]
  }

  /** Every token request sequence `getToken` can issue: nothing (Dropbox),
      a probe, a refresh, or a probe then a single refresh. */
  predicate TokenRequests(p: Provider, silent: bool, issued: seq<Request>) {
    if p == Dropbox then issued == []
    else
      || issued == [TokenProbe(p)]
      || (|issued| == 1 && IsRefresh(p, silent, issued[0]))
      || (|issued| == 2 && issued[0] == TokenProbe(p) && IsRefresh(p, silent, issued[1]))
  }

  /** The request sequence ends with a refresh. */
  predicate Refreshed(p: Provider, silent: bool, issued: seq<Request>) {
    |issued| > 0 && IsRefresh(p, silent, issued[|issued| - 1])
  }

  /** The reply the next request receives. */
  function NextReply(net: Net): Response {
    if net.replies == [] then NoResponse else net.replies[0]
  }

  predicate Unauthorized(r: Response) {
    r.Reply? && r.status == 401
  }

  /** A reply other than 401 whose body parses. */
  predicate JsonReply(r: Response) {
    r.Reply? && r.status != 401 && r.body.Json?
  }

  /** A reply other than 401 whose body does not parse. */
  predicate Unparsable(r: Response) {
    r.Reply? && r.status != 401 && r.body.ParseError?
  }

  predicate HasError(r: Response)
    requires JsonReply(r)
  {
    TruthyAt(r.body.fields, "error")
  }

  /** A refused grant: 401, or `error: "invalid_grant"`. */
  predicate GrantRefused(r: Response) {
    Unauthorized(r) || (JsonReply(r) && HasError(r) && r.body.fields["error"] == Str("invalid_grant"))
  }

  lemma SendIssues(net: Net, req: Request)
    ensures Extends(net, Send(net, req).1) && Issued(net, Send(net, req).1) == [req]
    ensures Send(net, req).0 == NextReply(net)
  {
    assert Send(net, req).1.sent == net.sent + [req];
  }

  /** A refresh issues exactly one request, the provider's refresh. */
  lemma RefreshIssues(st: Storage, keys: set<string>, net: Net, p: Provider, silent: bool)
    requires p != Dropbox
    ensures var r := Refresh(st, keys, net, p, silent);
      Extends(net, r.net) && |Issued(net, r.net)| == 1 && IsRefresh(p, silent, Issued(net, r.net)[0])
  {
    var r := Refresh(st, keys, net, p, silent);
    if p == Drive && silent {
      assert r.net.sent == net.sent + [SilentAuth];
    } else {
      var snap := AllItems(st);
      var req :=
        if p == Drive then DriveRefresh(Lookup(snap, RefreshKey(p)))
        else OneDriveRefresh(Lookup(snap, RefreshKey(p)),
                             OneDriveScope(Lookup(snap, BusinessKey) == Some(Bool(true))));
      SendIssues(net, req);
      assert r.net.sent == net.sent + [req];
    }
  }

  /** `getToken` refreshes at most once and never recurses, every Drive or
      OneDrive call contacts the remote side, and a truthy result is the
      token cached before the call, untouched; so a call that had to
      refresh never returns a usable token. */
  lemma GetTokenRequests(st: Storage, keys: set<string>, net: Net, p: Provider, silent: bool)
    ensures var t := GetToken(st, keys, net, p, silent);
      && Extends(net, t.net)
      && TokenRequests(p, silent, Issued(net, t.net))
      && (t.out.Resolved? && Present(t.out.value) ==>
            t.out.value == Lookup(AllItems(st), TokenKey(p)) && t.st == st
            && (p != Dropbox ==> Issued(net, t.net) == [TokenProbe(p)]))
      && (Refreshed(p, silent, Issued(net, t.net)) && t.out.Resolved? ==> !Present(t.out.value))
  {
    var t := GetToken(st, keys, net, p, silent);
    var snap := AllItems(st);
    if p == Dropbox {
      assert t.net == net;
    } else if !TruthyAt(snap, TokenKey(p)) {
      var r := Refresh(st, keys, net, p, silent);
      assert t == AfterRefresh(r, Lookup(snap, TokenKey(p)));
      RefreshIssues(st, keys, net, p, silent);
      AfterRefreshIssues(net, net, r, Lookup(snap, TokenKey(p)));
    } else {
      var (resp, net1) := Send(net, TokenProbe(p));
      SendIssues(net, TokenProbe(p));
      if resp.Reply? && resp.body.Json? && TruthyAt(resp.body.fields, "error") && ErrorCodeIs(resp.body.fields, 401) {
        var st1 := Written(st, keys, snap - {TokenKey(p)});
        var r := Refresh(st1, keys, net1, p, silent);
        assert t == AfterRefresh(r, None);
        RefreshIssues(st1, keys, net1, p, silent);
        AfterRefreshIssues(net, net1, r, None);
      } else {
        assert t.net == net1;
      }
    }
  }

  /** The step after a refresh: its requests follow the earlier ones and
      the token returned is the one given. */
  lemma AfterRefreshIssues(net0: Net, net1: Net, r: Step<bool>, token: Option<Value>)
    requires Extends(net0, net1) && Extends(net1, r.net)
    ensures var t := AfterRefresh(r, token);
      && Extends(net0, t.net) && Issued(net0, t.net) == Issued(net0, net1) + Issued(net1, r.net)
      && (t.out.Resolved? ==> t.out.value == token)
      && t.st == r.st
  {
    IssuedConcat(net0, net1, r.net);
  }

  /** A token lookup never moves the storage preference. */
  lemma GetTokenKeeps(st: Storage, keys: set<string>, net: Net, p: Provider, silent: bool)
    requires Coherent(st, keys)
    ensures Keeps(st, GetToken(st, keys, net, p, silent).st, keys)
  {
    var snap := AllItems(st);
    var t := GetToken(st, keys, net, p, silent);
    if p == Dropbox {
    } else if !TruthyAt(snap, TokenKey(p)) {
      assert t.st == Refresh(st, keys, net, p, silent).st;
      RefreshKeeps(st, keys, net, p, silent);
    } else {
      var (resp, net1) := Send(net, TokenProbe(p));
      if resp.Reply? && resp.body.Json? && TruthyAt(resp.body.fields, "error") && ErrorCodeIs(resp.body.fields, 401) {
        var st1 := Written(st, keys, snap - {TokenKey(p)});
        WriteBack(st, keys, snap - {TokenKey(p)});
        assert t.st == Refresh(st1, keys, net1, p, silent).st;
        RefreshKeeps(st1, keys, net1, p, silent);
      } else {
        assert t.st == st;
      }
    }
  }

  lemma RefreshKeeps(st: Storage, keys: set<string>, net: Net, p: Provider, silent: bool)
    requires p != Dropbox && Coherent(st, keys)
    ensures Keeps(st, Refresh(st, keys, net, p, silent).st, keys)
  {
    if p == Drive && silent {
      SilentRefreshOutcomes(st, keys, net);
    } else {
      RefreshGrantOutcomes(st, keys, net, p);
    }
  }

  // ---------------------------------------------------------------------
  // Refresh outcomes.

  /** The refresh-token grant: a refused grant clears the refresh token and
      marks the credential revoked; any other error changes nothing; a
      grant stores the new access token; only a grant resolves true. */
  lemma RefreshGrantOutcomes(st: Storage, keys: set<string>, net: Net, p: Provider)
    requires p != Dropbox && Coherent(st, keys)
    ensures var r := RefreshGrant(st, keys, net, p);
      var snap := AllItems(st);
      var after := AllItems(r.st);
      var reply := NextReply(net);
      && Keeps(st, r.st, keys)
      && (r.out == Resolved(true) <==> JsonReply(reply) && !HasError(reply))
      && (GrantRefused(reply) ==>
            && r.out == Resolved(false)
            && Lookup(after, RefreshKey(p)) == None
            && Lookup(after, RevokedKey(p)) == Some(Bool(true))
            && AgreeExcept(after, snap, {RefreshKey(p), RevokedKey(p)}))
      && (JsonReply(reply) && HasError(reply) && !GrantRefused(reply) ==>
            r.out == Resolved(false) && r.st == st)
      && (JsonReply(reply) && !HasError(reply) ==>
            && Lookup(after, TokenKey(p)) == Lookup(reply.body.fields, "access_token")
            && AgreeExcept(after, snap, {TokenKey(p)}))
      && (Unparsable(reply) ==> r.out == Rejected && r.st == st)
      && (reply == NoResponse ==> r.out == Pending && r.st == st)
  {
    var snap := AllItems(st);
    var reply := NextReply(net);
    var req :=
      if p == Drive then DriveRefresh(Lookup(snap, RefreshKey(p)))
      else OneDriveRefresh(Lookup(snap, RefreshKey(p)),
                           OneDriveScope(Lookup(snap, BusinessKey) == Some(Bool(true))));
    SendIssues(net, req);
    if GrantRefused(reply) {
      WriteBack(st, keys, RevokeRefresh(snap, p));
    } else if JsonReply(reply) && !HasError(reply) {
      WriteBack(st, keys, Assign(snap, TokenKey(p), Lookup(reply.body.fields, "access_token")));
    }
  }

  /** Drive's browser refresh: a token is stored as the new access token;
      no token (or an empty one) is stored as such and marks the credential
      revoked; only a non-empty token resolves true. */
  lemma SilentRefreshOutcomes(st: Storage, keys: set<string>, net: Net)
    requires Coherent(st, keys)
    ensures var r := SilentRefresh(st, keys, net);
      var snap := AllItems(st);
      var after := AllItems(r.st);
      && Keeps(st, r.st, keys)
      && r.net.sent == net.sent + [SilentAuth]
      && (net.grants == [] ==> r.out == Pending && r.st == st)
      && (net.grants != [] ==>
            var token := net.grants[0];
            && (r.out == Resolved(true) <==> token.Some? && token.value != "")
            && r.out.Resolved?
            && Lookup(after, TokenKey(Drive)) == (if token.Some? then Some(Str(token.value)) else None)
            && (r.out == Resolved(false) ==> Lookup(after, RevokedKey(Drive)) == Some(Bool(true)))
            && AgreeExcept(after, snap, {TokenKey(Drive), RevokedKey(Drive)}))
  {
    var snap := AllItems(st);
    if net.grants != [] {
      var token := net.grants[0];
      var value := if token.Some? then Some(Str(token.value)) else None;
      var snap1 := Assign(snap, TokenKey(Drive), value);
      var snap2 := if Present(value) then snap1 else snap1[RevokedKey(Drive) := Bool(true)];
      WriteBack(st, keys, snap2);
    }
  }

  lemma IssuedConcat(n0: Net, n1: Net, n2: Net)
    requires Extends(n0, n1) && Extends(n1, n2)
    ensures Extends(n0, n2) && Issued(n0, n2) == Issued(n0, n1) + Issued(n1, n2)
  {
    assert n2.sent[..|n0.sent|] == n2.sent[..|n1.sent|][..|n0.sent|];
  }

  lemma IssuedSnoc(n0: Net, n1: Net, n2: Net, req: Request)
    requires Extends(n0, n1) && Extends(n1, n2) && Issued(n1, n2) == [req]
    ensures Extends(n0, n2) && |Issued(n0, n2)| == |Issued(n0, n1)| + 1
    ensures Issued(n0, n2)[|Issued(n0, n1)|] == req
  {
    IssuedConcat(n0, n1, n2);
  }

  /** The probe step of `getToken` when the probe reports error 401. */
  lemma ProbeRejectedUnfolds(st: Storage, keys: set<string>, net: Net, p: Provider, silent: bool)
    requires p != Dropbox
    requires TruthyAt(AllItems(st), TokenKey(p))
    requires net.replies != [] && JsonReply(net.replies[0]) && ErrorCodeIs(net.replies[0].body.fields, 401)
    ensures GetToken(st, keys, net, p, silent)
         == AfterRefresh(Refresh(Written(st, keys, AllItems(st) - {TokenKey(p)}), keys, Send(net, TokenProbe(p)).1, p, silent), None)
  {
  }

  /** A probe that reports error 401 clears the cached token and refreshes
      once; when the refresh grant is refused as well, the call gives up
      with no token, no refresh token and the credential marked revoked. */
  lemma ProbeRejectedThenGrantRefused(st: Storage, keys: set<string>, net: Net, p: Provider, silent: bool)
    requires p != Dropbox && (p == OneDrive || !silent) && Coherent(st, keys)
    requires TruthyAt(AllItems(st), TokenKey(p))
    requires |net.replies| >= 2
    requires JsonReply(net.replies[0]) && ErrorCodeIs(net.replies[0].body.fields, 401)
    requires GrantRefused(net.replies[1])
    ensures var t := GetToken(st, keys, net, p, silent);
      var after := AllItems(t.st);
      && t.out == Resolved(None)
      && Extends(net, t.net) && |Issued(net, t.net)| == 2
      && Issued(net, t.net)[0] == TokenProbe(p) && IsRefresh(p, silent, Issued(net, t.net)[1])
      && Lookup(after, TokenKey(p)) == None
      && Lookup(after, RefreshKey(p)) == None
      && Lookup(after, RevokedKey(p)) == Some(Bool(true))
      && AgreeExcept(after, AllItems(st), {TokenKey(p), RefreshKey(p), RevokedKey(p)})
  {
    var snap := AllItems(st);
    var (resp, net1) := Send(net, TokenProbe(p));
    SendIssues(net, TokenProbe(p));
    assert resp == net.replies[0];
    var snap1 := snap - {TokenKey(p)};
    WriteBack(st, keys, snap1);
    var st1 := Written(st, keys, snap1);
    var rf := Refresh(st1, keys, net1, p, silent);
    ProbeRejectedUnfolds(st, keys, net, p, silent);
    assert NextReply(net1) == net.replies[1];
    assert rf == RefreshGrant(st1, keys, net1, p);
    RefreshGrantOutcomes(st1, keys, net1, p);
    RefreshIssues(st1, keys, net1, p, silent);
    GaveUpAfterProbe(st, st1, net, net1, rf, p, silent);
  }

  /** The end of a rejected probe followed by a refused refresh. */
  lemma GaveUpAfterProbe(st: Storage, st1: Storage, net: Net, net1: Net, rf: Step<bool>, p: Provider, silent: bool)
    requires Extends(net, net1) && Issued(net, net1) == [TokenProbe(p)]
    requires Extends(net1, rf.net) && |Issued(net1, rf.net)| == 1 && IsRefresh(p, silent, Issued(net1, rf.net)[0])
    requires rf.out == Resolved(false)
    requires AllItems(st1) == AllItems(st) - {TokenKey(p)}
    requires Lookup(AllItems(rf.st), RefreshKey(p)) == None
    requires Lookup(AllItems(rf.st), RevokedKey(p)) == Some(Bool(true))
    requires AgreeExcept(AllItems(rf.st), AllItems(st1), {RefreshKey(p), RevokedKey(p)})
    ensures var t := AfterRefresh(rf, None);
      var after := AllItems(t.st);
      && t.out == Resolved(None)
      && Extends(net, t.net) && |Issued(net, t.net)| == 2
      && Issued(net, t.net)[0] == TokenProbe(p) && IsRefresh(p, silent, Issued(net, t.net)[1])
      && Lookup(after, TokenKey(p)) == None
      && Lookup(after, RefreshKey(p)) == None
      && Lookup(after, RevokedKey(p)) == Some(Bool(true))
      && AgreeExcept(after, AllItems(st), {TokenKey(p), RefreshKey(p), RevokedKey(p)})
  {
    AfterRefreshIssues(net, net1, rf, None);
    AgreeExceptTrans(AllItems(rf.st), AllItems(st1), AllItems(st), {RefreshKey(p), RevokedKey(p)}, {TokenKey(p)});
  }

  lemma AgreeExceptTrans(a: Record, b: Record, c: Record, s1: set<string>, s2: set<string>)
    requires AgreeExcept(a, b, s1) && AgreeExcept(b, c, s2)
    ensures AgreeExcept(a, c, s1 + s2)
  {
  }

  /** A probe the remote side accepts: the cached token is returned,
      nothing is written. */
  lemma ProbeAccepted(st: Storage, keys: set<string>, net: Net, p: Provider, silent: bool)
    requires p != Dropbox
    requires TruthyAt(AllItems(st), TokenKey(p))
    requires JsonReply(NextReply(net)) && !HasError(NextReply(net))
    ensures GetToken(st, keys, net, p, silent)
         == Step(Resolved(Lookup(AllItems(st), TokenKey(p))), st, Send(net, TokenProbe(p)).1)
  {
  }

  /** With the probe accepted, `getFolder` goes on to the folder check. */
  lemma GetFolderWithToken(st: Storage, keys: set<string>, net: Net, silent: bool)
    requires TruthyAt(AllItems(st), TokenKey(Drive))
    requires JsonReply(NextReply(net)) && !HasError(NextReply(net))
    ensures GetFolder(st, keys, net, silent) == EnsureFolder(st, keys, Send(net, TokenProbe(Drive)).1)
  {
    ProbeAccepted(st, keys, net, Drive, silent);
  }

  /** With neither an access token nor a refresh token cached, OneDrive
      still sends a refresh request, carrying no refresh token. */
  lemma OneDriveRefreshesWithoutRefreshToken(st: Storage, keys: set<string>, net: Net)
    requires !TruthyAt(AllItems(st), TokenKey(OneDrive))
    requires RefreshKey(OneDrive) !in AllItems(st)
    ensures var t := GetToken(st, keys, net, OneDrive, false);
      && Extends(net, t.net)
      && Issued(net, t.net) == [OneDriveRefresh(None, OneDriveScope(Lookup(AllItems(st), BusinessKey) == Some(Bool(true))))]
  {
    var snap := AllItems(st);
    SendIssues(net, OneDriveRefresh(None, OneDriveScope(Lookup(snap, BusinessKey) == Some(Bool(true)))));
  }

  // ---------------------------------------------------------------------
  // Drive folder.

  predicate FolderRequest(r: Request) {
    r.FolderCheck? || r.FolderCreate?
  }

  lemma CheckFolderIssues(st: Storage, keys: set<string>, net: Net, snap: Record)
    ensures var c := CheckFolder(st, keys, net, snap);
      && Extends(net, c.net) && |Issued(net, c.net)| <= 1
      && forall i | 0 <= i < |Issued(net, c.net)| :: FolderRequest(Issued(net, c.net)[i])
  {
    if TruthyAt(snap, FolderKey) {
      var (resp, net1) := Send(net, FolderCheck(snap[FolderKey]));
      SendIssues(net, FolderCheck(snap[FolderKey]));
      assert CheckFolder(st, keys, net, snap).net == net1;
    }
  }

  lemma CreateFolderIssues(st: Storage, keys: set<string>, net: Net, snap: Record)
    ensures var c := CreateFolder(st, keys, net, snap);
      && Extends(net, c.net) && |Issued(net, c.net)| <= 1
      && forall i | 0 <= i < |Issued(net, c.net)| :: FolderRequest(Issued(net, c.net)[i])
  {
    if !TruthyAt(snap, FolderKey) {
      var (resp, net1) := Send(net, FolderCreate);
      SendIssues(net, FolderCreate);
      assert CreateFolder(st, keys, net, snap).net == net1;
    }
  }

  /** The folder step issues at most a check and a creation. */
  lemma EnsureFolderRequests(st: Storage, keys: set<string>, net: Net)
    ensures var r := EnsureFolder(st, keys, net);
      && Extends(net, r.net) && |Issued(net, r.net)| <= 2
      && forall i | 0 <= i < |Issued(net, r.net)| :: FolderRequest(Issued(net, r.net)[i])
  {
    var c := CheckFolder(st, keys, net, AllItems(st));
    CheckFolderIssues(st, keys, net, AllItems(st));
    if c.out.Resolved? {
      var r := CreateFolder(c.st, keys, c.net, c.out.value);
      CreateFolderIssues(c.st, keys, c.net, c.out.value);
      assert EnsureFolder(st, keys, net) == r;
      IssuedConcat(net, c.net, r.net);
    }
  }

  /** `getFolder` never uploads; a truthy folder id implies that its token
      step was a probe the remote side accepted and that nothing was
      refreshed. */
  lemma GetFolderRequests(st: Storage, keys: set<string>, net: Net, silent: bool)
    ensures var g := GetFolder(st, keys, net, silent);
      && Extends(net, g.net)
      && (forall i | 0 <= i < |Issued(net, g.net)| :: !IsUpload(Issued(net, g.net)[i]))
      && (g.out.Resolved? && Present(g.out.value) ==>
            && |Issued(net, g.net)| > 0 && Issued(net, g.net)[0] == TokenProbe(Drive)
            && forall i | 0 <= i < |Issued(net, g.net)| :: !IsRefresh(Drive, silent, Issued(net, g.net)[i]))
  {
    var t := GetToken(st, keys, net, Drive, silent);
    var g := GetFolder(st, keys, net, silent);
    GetTokenRequests(st, keys, net, Drive, silent);
    if t.out.Resolved? && Present(t.out.value) {
      assert g == EnsureFolder(t.st, keys, t.net);
      EnsureFolderRequests(t.st, keys, t.net);
      FolderAfterProbe(net, t.net, g.net, silent);
    } else {
      assert g.net == t.net && !(g.out.Resolved? && Present(g.out.value));
      TokenRequestsNoUpload(Drive, silent, Issued(net, t.net));
    }
  }

  lemma TokenRequestsNoUpload(p: Provider, silent: bool, issued: seq<Request>)
    requires TokenRequests(p, silent, issued)
    ensures forall i | 0 <= i < |issued| :: !IsUpload(issued[i])
  {
  }

  /** A probe followed by folder requests: no upload, no refresh. */
  lemma FolderAfterProbe(n0: Net, n1: Net, n2: Net, silent: bool)
    requires Extends(n0, n1) && Issued(n0, n1) == [TokenProbe(Drive)]
    requires Extends(n1, n2) && forall i | 0 <= i < |Issued(n1, n2)| :: FolderRequest(Issued(n1, n2)[i])
    ensures Extends(n0, n2) && |Issued(n0, n2)| > 0 && Issued(n0, n2)[0] == TokenProbe(Drive)
    ensures forall i | 0 <= i < |Issued(n0, n2)| :: !IsUpload(Issued(n0, n2)[i]) && !IsRefresh(Drive, silent, Issued(n0, n2)[i])
  {
    IssuedConcat(n0, n1, n2);
  }

  /** A cached folder id that the check confirms (no error, not trashed)
      is kept: one request, nothing written. */
  lemma CachedFolderKept(st: Storage, keys: set<string>, net: Net)
    requires TruthyAt(AllItems(st), FolderKey)
    requires JsonReply(NextReply(net)) && !HasError(NextReply(net))
    requires !TruthyAt(NextReply(net).body.fields, "trashed")
    ensures var r := EnsureFolder(st, keys, net);
      && r.out == Resolved(Lookup(AllItems(st), FolderKey))
      && r.st == st
      && Extends(net, r.net) && Issued(net, r.net) == [FolderCheck(AllItems(st)[FolderKey])]
  {
    SendIssues(net, FolderCheck(AllItems(st)[FolderKey]));
  }

  /** A cached folder id reported missing (error 404) or trashed is
      cleared, a folder is created and its new id cached; nothing else in
      the store changes. */
  lemma StaleFolderReplaced(st: Storage, keys: set<string>, net: Net)
    requires Coherent(st, keys)
    requires TruthyAt(AllItems(st), FolderKey)
    requires |net.replies| >= 2
    requires JsonReply(net.replies[0])
    requires ErrorCodeIs(net.replies[0].body.fields, 404)
          || (!HasError(net.replies[0]) && TruthyAt(net.replies[0].body.fields, "trashed"))
    requires JsonReply(net.replies[1]) && !HasError(net.replies[1])
    ensures var r := EnsureFolder(st, keys, net);
      var id := Lookup(net.replies[1].body.fields, "id");
      var after := AllItems(r.st);
      && r.out == Resolved(id)
      && Lookup(after, FolderKey) == id
      && AgreeExcept(after, AllItems(st), {FolderKey})
      && Keeps(st, r.st, keys)
      && Extends(net, r.net)
      && Issued(net, r.net) == [FolderCheck(AllItems(st)[FolderKey]), FolderCreate]
      && r.net.replies == net.replies[2..]
  {
    var snap := AllItems(st);
    var (_, net1) := Send(net, FolderCheck(snap[FolderKey]));
    SendIssues(net, FolderCheck(snap[FolderKey]));
    var cleared := snap - {FolderKey};
    WriteBack(st, keys, cleared);
    var st1 := Written(st, keys, cleared);
    var c := CheckFolder(st, keys, net, snap);
    assert c == Step(Resolved(cleared), st1, net1);
    assert NextReply(net1) == net.replies[1];
    SendIssues(net1, FolderCreate);
    var id := Lookup(net.replies[1].body.fields, "id");
    var rec := Assign(cleared, FolderKey, id);
    var net2 := Send(net1, FolderCreate).1;
    assert EnsureFolder(st, keys, net) == Step(Resolved(Lookup(rec, FolderKey)), Written(st1, keys, rec), net2);
    WriteBack(st1, keys, rec);
    IssuedConcat(net, net1, net2);
  }

  /** With no folder id cached, a folder is created and its id cached. */
  lemma MissingFolderCreated(st: Storage, keys: set<string>, net: Net)
    requires Coherent(st, keys)
    requires !TruthyAt(AllItems(st), FolderKey)
    requires JsonReply(NextReply(net)) && !HasError(NextReply(net))
    ensures var r := EnsureFolder(st, keys, net);
      var id := Lookup(NextReply(net).body.fields, "id");
      var after := AllItems(r.st);
      && r.out == Resolved(id)
      && Lookup(after, FolderKey) == id
      && AgreeExcept(after, AllItems(st), {FolderKey})
      && Keeps(st, r.st, keys)
      && Extends(net, r.net) && Issued(net, r.net) == [FolderCreate]
  {
    var snap := AllItems(st);
    SendIssues(net, FolderCreate);
    WriteBack(st, keys, Assign(snap, FolderKey, Lookup(NextReply(net).body.fields, "id")));
  }

  lemma CheckFolderCaches(st: Storage, keys: set<string>, net: Net)
    requires Coherent(st, keys)
    ensures var c := CheckFolder(st, keys, net, AllItems(st));
      Keeps(st, c.st, keys) && (c.out.Resolved? ==> AllItems(c.st) == c.out.value)
  {
    var snap := AllItems(st);
    var c := CheckFolder(st, keys, net, snap);
    CheckFolderWrites(st, keys, net, snap);
    if c.st != st {
      WriteBack(st, keys, c.out.value);
    }
  }

  /** The check either leaves the store alone and, when it resolves,
      returns the snapshot; or it writes back the snapshot less the token
      or less the folder id, and returns what it wrote. */
  lemma CheckFolderWrites(st: Storage, keys: set<string>, net: Net, snap: Record)
    ensures var c := CheckFolder(st, keys, net, snap);
      || (c.st == st && (c.out.Resolved? ==> c.out.value == snap))
      || (&& c.out.Resolved? && c.st == Written(st, keys, c.out.value)
          && (c.out.value == snap - {TokenKey(Drive)} || c.out.value == snap - {FolderKey}))
  {
  }

  lemma CreateFolderCaches(st: Storage, keys: set<string>, net: Net)
    requires Coherent(st, keys)
    ensures var c := CreateFolder(st, keys, net, AllItems(st));
      && Keeps(st, c.st, keys)
      && (c.out.Resolved? ==> c.out.value == Lookup(AllItems(c.st), FolderKey))
  {
    var snap := AllItems(st);
    if !TruthyAt(snap, FolderKey) {
      var (resp, net1) := Send(net, FolderCreate);
      WriteBack(st, keys, snap - {TokenKey(Drive)});
      if JsonReply(resp) {
        WriteBack(st, keys, Assign(snap, FolderKey, Lookup(resp.body.fields, "id")));
      }
    }
  }

  /** The folder id `getFolder` returns is the one the store caches when
      it returns; `getFolder` never moves the storage preference. */
  lemma GetFolderCaches(st: Storage, keys: set<string>, net: Net, silent: bool)
    requires Coherent(st, keys)
    ensures var g := GetFolder(st, keys, net, silent);
      && Keeps(st, g.st, keys)
      && (g.out.Resolved? && Present(g.out.value) ==> g.out.value == Lookup(AllItems(g.st), FolderKey))
  {
    var t := GetToken(st, keys, net, Drive, silent);
    GetTokenKeeps(st, keys, net, Drive, silent);
    var c := CheckFolder(t.st, keys, t.net, AllItems(t.st));
    CheckFolderCaches(t.st, keys, t.net);
    if c.out.Resolved? {
      CreateFolderCaches(c.st, keys, c.net);
    }
  }

  /** A check reporting an error other than 404 never settles. */
  lemma FolderCheckHangs(st: Storage, keys: set<string>, net: Net)
    requires TruthyAt(AllItems(st), FolderKey)
    requires JsonReply(NextReply(net)) && HasError(NextReply(net))
    requires !ErrorCodeIs(NextReply(net).body.fields, 404)
    ensures EnsureFolder(st, keys, net).out == Pending
    ensures EnsureFolder(st, keys, net).st == st
  {
  }

  // ---------------------------------------------------------------------
  // Uploads.

  /** The first step of every upload: an unset encrypt flag reads as true;
      Dropbox and Drive persist it, OneDrive only sets its copy. */
  lemma EncryptByDefault(st: Storage, keys: set<string>, p: Provider)
    requires Coherent(st, keys)
    ensures var (snap, st1) := Defaulted(st, keys, p);
      var before := AllItems(st);
      && (EncryptFlag(snap, p) <==> EncryptedKey(p) !in before || before[EncryptedKey(p)] == Bool(true))
      && EncryptedKey(p) in snap
      && AgreeExcept(snap, before, {EncryptedKey(p)})
      && Keeps(st, st1, keys)
      && (p == OneDrive || EncryptedKey(p) in before ==> st1 == st)
      && (p != OneDrive ==> AllItems(st1) == snap)
  {
    var before := AllItems(st);
    if EncryptedKey(p) !in before && p != OneDrive {
      WriteBack(st, keys, WithEncryptDefault(before, p));
    }
  }

  /** Every upload request comes last, only when a token was cached before
      the call, and never in a call that refreshed; an upload resolves true
      only after its upload request. */
  ghost predicate UploadGuarded(st: Storage, p: Provider, silent: bool, issued: seq<Request>) {
    forall i | 0 <= i < |issued| && IsUpload(issued[i]) ::
      && i == |issued| - 1
      && TruthyAt(AllItems(st), TokenKey(p))
      && forall j | 0 <= j < |issued| :: !IsRefresh(p, silent, issued[j])
  }

  lemma UploadRequests(st: Storage, keys: set<string>, net: Net, p: Provider, silent: bool,
                       exportOf: bool -> string, iso: string)
    requires Coherent(st, keys)
    ensures var r := UploadFlow(st, keys, net, p, silent, exportOf, iso);
      && Extends(net, r.net)
      && UploadGuarded(st, p, silent, Issued(net, r.net))
      && (r.out == Resolved(true) ==> |Issued(net, r.net)| > 0 && IsUpload(Issued(net, r.net)[|Issued(net, r.net)| - 1]))
  {
    match p
    case Dropbox => DropboxUploadRequests(st, keys, net, exportOf, iso);
    case Drive => DriveUploadRequests(st, keys, net, silent, exportOf, iso);
    case OneDrive => OneDriveUploadRequests(st, keys, net, exportOf, iso);
  }

  lemma DropboxUploadRequests(st: Storage, keys: set<string>, net: Net, exportOf: bool -> string, iso: string)
    requires Coherent(st, keys)
    ensures var r := DropboxUploadFlow(st, keys, net, exportOf, iso);
      && Extends(net, r.net)
      && UploadGuarded(st, Dropbox, false, Issued(net, r.net))
      && (r.out == Resolved(true) ==> |Issued(net, r.net)| > 0 && IsUpload(Issued(net, r.net)[|Issued(net, r.net)| - 1]))
  {
    EncryptByDefault(st, keys, Dropbox);
    var (snap, st1) := Defaulted(st, keys, Dropbox);
    var backup := exportOf(EncryptFlag(snap, Dropbox));
    var r := DropboxUploadFlow(st, keys, net, exportOf, iso);
    if Truthy(DropboxTokenOf(AllItems(st1))) {
      var req := DropboxUpload(DropboxApiArg(iso), backup);
      var (resp, net1) := Send(net, req);
      SendIssues(net, req);
      assert r.net == net1;
      assert Lookup(AllItems(st1), TokenKey(Dropbox)) == Lookup(AllItems(st), TokenKey(Dropbox));
    } else {
      assert r.net == net;
    }
  }

  lemma OneDriveUploadRequests(st: Storage, keys: set<string>, net: Net, exportOf: bool -> string, iso: string)
    requires Coherent(st, keys)
    ensures var r := OneDriveUploadFlow(st, keys, net, exportOf, iso);
      && Extends(net, r.net)
      && UploadGuarded(st, OneDrive, false, Issued(net, r.net))
      && (r.out == Resolved(true) ==> |Issued(net, r.net)| > 0 && IsUpload(Issued(net, r.net)[|Issued(net, r.net)| - 1]))
  {
    var (snap, st1) := Defaulted(st, keys, OneDrive);
    assert st1 == st;
    var backup := exportOf(EncryptFlag(snap, OneDrive));
    var r := OneDriveUploadFlow(st, keys, net, exportOf, iso);
    var t := GetToken(st, keys, net, OneDrive, false);
    GetTokenRequests(st, keys, net, OneDrive, false);
    if t.out.Resolved? && Present(t.out.value) {
      var req := OneDriveUpload(BackupFileName(iso), backup);
      var (resp, net1) := Send(t.net, req);
      SendIssues(t.net, req);
      assert r.net == net1;
      UploadAfter(st, OneDrive, false, net, t.net, net1, req);
    } else {
      assert r.net == t.net && r.out != Resolved(true);
      TokenRequestsNoUpload(OneDrive, false, Issued(net, t.net));
    }
  }

  /** The three exits of the Drive upload: no token, no folder, or the
      upload request. */
  lemma DriveUploadUnfolds(st: Storage, keys: set<string>, net: Net, silent: bool,
                           exportOf: bool -> string, iso: string)
    ensures var (snap, st1) := Defaulted(st, keys, Drive);
      var t := GetToken(st1, keys, net, Drive, silent);
      var r := DriveUploadFlow(st, keys, net, silent, exportOf, iso);
      && (!(t.out.Resolved? && Present(t.out.value)) ==> r.net == t.net && r.out != Resolved(true))
      && (t.out.Resolved? && Present(t.out.value) ==>
            var g := GetFolder(t.st, keys, t.net, silent);
            && (!(g.out.Resolved? && Present(g.out.value)) ==> r.net == g.net && r.out != Resolved(true))
            && (g.out.Resolved? && Present(g.out.value) ==>
                  r == DriveSendBackup(g.st, keys, g.net, snap,
                                       Lines(DriveRequestLines(iso, Lookup(snap, FolderKey), exportOf(EncryptFlag(snap, Drive)))))))
  {
  }

  /** The Drive upload request: one request; a 401 writes back the given
      snapshot without the token; any other reply writes nothing; only a
      reply without error resolves true. */
  lemma DriveSendBackupOutcomes(st: Storage, keys: set<string>, net: Net, snap: Record, content: string)
    ensures var r := DriveSendBackup(st, keys, net, snap, content);
      var reply := NextReply(net);
      && Extends(net, r.net) && Issued(net, r.net) == [DriveUpload(content)]
      && r.net.replies == (if net.replies == [] then [] else net.replies[1..])
      && (Unauthorized(reply) ==> r.out == Resolved(false) && r.st == Written(st, keys, snap - {TokenKey(Drive)}))
      && (!Unauthorized(reply) ==> r.st == st)
      && (r.out == Resolved(true) <==> JsonReply(reply) && !HasError(reply))
  {
    SendIssues(net, DriveUpload(content));
  }

  /** A request sequence that ends with its only upload, after a cached
      token was confirmed and nothing was refreshed, obeys the guard. */
  lemma GuardedLastUpload(st: Storage, p: Provider, silent: bool, pre: seq<Request>, req: Request)
    requires TruthyAt(AllItems(st), TokenKey(p))
    requires IsUpload(req) && !IsRefresh(p, silent, req)
    requires forall i | 0 <= i < |pre| :: !IsUpload(pre[i]) && !IsRefresh(p, silent, pre[i])
    ensures UploadGuarded(st, p, silent, pre + [req])
    ensures forall i | 0 <= i < |pre + [req]| && IsUpload((pre + [req])[i]) :: (pre + [req])[i] == req
  {
    var s := pre + [req];
    forall j | 0 <= j < |s|
      ensures !IsRefresh(p, silent, s[j])
    {
      if j < |pre| { assert s[j] == pre[j]; }
    }
    forall i | 0 <= i < |s| && IsUpload(s[i])
      ensures i == |s| - 1
    {
    }
  }

  /** Requests with no upload and no refresh, then one upload: the guard
      holds and the upload is the last and only one. */
  lemma UploadAfter(st: Storage, p: Provider, silent: bool, n0: Net, n1: Net, n2: Net, req: Request)
    requires TruthyAt(AllItems(st), TokenKey(p))
    requires Extends(n0, n1)
    requires forall i | 0 <= i < |Issued(n0, n1)| :: !IsUpload(Issued(n0, n1)[i]) && !IsRefresh(p, silent, Issued(n0, n1)[i])
    requires Extends(n1, n2) && Issued(n1, n2) == [req] && IsUpload(req) && !IsRefresh(p, silent, req)
    ensures Extends(n0, n2) && UploadGuarded(st, p, silent, Issued(n0, n2))
    ensures |Issued(n0, n2)| > 0 && Issued(n0, n2)[|Issued(n0, n2)| - 1] == req
    ensures forall i | 0 <= i < |Issued(n0, n2)| && IsUpload(Issued(n0, n2)[i]) :: Issued(n0, n2)[i] == req
  {
    IssuedConcat(n0, n1, n2);
    GuardedLastUpload(st, p, silent, Issued(n0, n1), req);
  }

  lemma NoUploadConcat(n0: Net, n1: Net, n2: Net)
    requires Extends(n0, n1) && Extends(n1, n2)
    requires forall i | 0 <= i < |Issued(n0, n1)| :: !IsUpload(Issued(n0, n1)[i])
    requires forall i | 0 <= i < |Issued(n1, n2)| :: !IsUpload(Issued(n1, n2)[i])
    ensures Extends(n0, n2) && forall i | 0 <= i < |Issued(n0, n2)| :: !IsUpload(Issued(n0, n2)[i])
  {
    IssuedConcat(n0, n1, n2);
    forall i | 0 <= i < |Issued(n0, n2)|
      ensures !IsUpload(Issued(n0, n2)[i])
    {
      if i >= |Issued(n0, n1)| { assert Issued(n0, n2)[i] == Issued(n1, n2)[i - |Issued(n0, n1)|]; }
    }
  }

  /** Requests with no upload, then one request: any upload among them is
      that last request. */
  lemma LastUploadOnly(n0: Net, n1: Net, n2: Net, req: Request)
    requires Extends(n0, n1) && forall i | 0 <= i < |Issued(n0, n1)| :: !IsUpload(Issued(n0, n1)[i])
    requires Extends(n1, n2) && Issued(n1, n2) == [req]
    ensures Extends(n0, n2) && forall i | 0 <= i < |Issued(n0, n2)| && IsUpload(Issued(n0, n2)[i]) :: Issued(n0, n2)[i] == req
  {
    IssuedConcat(n0, n1, n2);
  }

  /** A probe, then requests with no upload and no refresh. */
  lemma QuietAfterProbe(n0: Net, n1: Net, n2: Net, p: Provider, silent: bool)
    requires Extends(n0, n1) && Issued(n0, n1) == [TokenProbe(p)] && p != Dropbox
    requires Extends(n1, n2)
    requires forall i | 0 <= i < |Issued(n1, n2)| :: !IsUpload(Issued(n1, n2)[i]) && !IsRefresh(p, silent, Issued(n1, n2)[i])
    ensures Extends(n0, n2)
    ensures forall i | 0 <= i < |Issued(n0, n2)| :: !IsUpload(Issued(n0, n2)[i]) && !IsRefresh(p, silent, Issued(n0, n2)[i])
  {
    IssuedConcat(n0, n1, n2);
    forall i | 0 <= i < |Issued(n0, n2)|
      ensures !IsUpload(Issued(n0, n2)[i]) && !IsRefresh(p, silent, Issued(n0, n2)[i])
    {
      if i > 0 { assert Issued(n0, n2)[i] == Issued(n1, n2)[i - 1]; }
    }
  }

  /** Besides the guard every upload obeys, the Drive upload names, as the
      parent folder, whatever folder id the snapshot read at the start of
      the upload held, not the id `getFolder` returned. */
  lemma DriveUploadRequests(st: Storage, keys: set<string>, net: Net, silent: bool,
                            exportOf: bool -> string, iso: string)
    requires Coherent(st, keys)
    ensures var r := DriveUploadFlow(st, keys, net, silent, exportOf, iso);
      var backup := exportOf(EncryptFlag(WithEncryptDefault(AllItems(st), Drive), Drive));
      && Extends(net, r.net)
      && UploadGuarded(st, Drive, silent, Issued(net, r.net))
      && (r.out == Resolved(true) ==> |Issued(net, r.net)| > 0 && IsUpload(Issued(net, r.net)[|Issued(net, r.net)| - 1]))
      && forall i | 0 <= i < |Issued(net, r.net)| && IsUpload(Issued(net, r.net)[i]) ::
           Issued(net, r.net)[i] == DriveUpload(Lines(DriveRequestLines(iso, Lookup(AllItems(st), FolderKey), backup)))
  {
    EncryptByDefault(st, keys, Drive);
    var (snap, st1) := Defaulted(st, keys, Drive);
    var backup := exportOf(EncryptFlag(snap, Drive));
    var content := Lines(DriveRequestLines(iso, Lookup(snap, FolderKey), backup));
    var r := DriveUploadFlow(st, keys, net, silent, exportOf, iso);
    DriveUploadUnfolds(st, keys, net, silent, exportOf, iso);
    var t := GetToken(st1, keys, net, Drive, silent);
    GetTokenRequests(st1, keys, net, Drive, silent);
    assert Lookup(AllItems(st1), TokenKey(Drive)) == Lookup(AllItems(st), TokenKey(Drive));
    assert Lookup(snap, FolderKey) == Lookup(AllItems(st), FolderKey);
    if !(t.out.Resolved? && Present(t.out.value)) {
      TokenRequestsNoUpload(Drive, silent, Issued(net, t.net));
      DriveUploadTail(st, net, t.net, t.net, r, silent, DriveUpload(content));
    } else {
      var g := GetFolder(t.st, keys, t.net, silent);
      GetFolderRequests(t.st, keys, t.net, silent);
      if !(g.out.Resolved? && Present(g.out.value)) {
        IssuedConcat(net, t.net, g.net);
        DriveUploadTail(st, net, g.net, g.net, r, silent, DriveUpload(content));
      } else {
        DriveSendBackupOutcomes(g.st, keys, g.net, snap, content);
        QuietAfterProbe(net, t.net, g.net, Drive, silent);
        DriveUploadTail(st, net, g.net, r.net, r, silent, DriveUpload(content));
      }
    }
  }

  /** The end of the Drive upload: either no upload request was made and
      the call did not succeed, or the requests before it were quiet and
      exactly one upload came last. */
  lemma DriveUploadTail(st: Storage, n0: Net, n1: Net, n2: Net, r: Step<bool>, silent: bool, req: Request)
    requires Extends(n0, n1) && Extends(n1, n2) && r.net == n2
    requires IsUpload(req) && !IsRefresh(Drive, silent, req)
    requires forall i | 0 <= i < |Issued(n0, n1)| :: !IsUpload(Issued(n0, n1)[i])
    requires n1 == n2 ==> r.out != Resolved(true)
    requires n1 != n2 ==>
      && TruthyAt(AllItems(st), TokenKey(Drive)) && Issued(n1, n2) == [req]
      && forall i | 0 <= i < |Issued(n0, n1)| :: !IsRefresh(Drive, silent, Issued(n0, n1)[i])
    ensures Extends(n0, r.net)
    ensures UploadGuarded(st, Drive, silent, Issued(n0, r.net))
    ensures r.out == Resolved(true) ==> |Issued(n0, r.net)| > 0 && IsUpload(Issued(n0, r.net)[|Issued(n0, r.net)| - 1])
    ensures forall i | 0 <= i < |Issued(n0, r.net)| && IsUpload(Issued(n0, r.net)[i]) :: Issued(n0, r.net)[i] == req
  {
    if n1 != n2 {
      UploadAfter(st, Drive, silent, n0, n1, n2, req);
    }
  }

  /** For every provider: with no token cached, `upload` resolves false (or
      not at all) and issues no upload request. */
  lemma NoTokenNoUpload(st: Storage, keys: set<string>, net: Net, p: Provider, silent: bool,
                        exportOf: bool -> string, iso: string)
    requires Coherent(st, keys)
    requires !TruthyAt(AllItems(st), TokenKey(p))
    ensures var r := UploadFlow(st, keys, net, p, silent, exportOf, iso);
      && r.out != Resolved(true)
      && Extends(net, r.net)
      && forall i | 0 <= i < |Issued(net, r.net)| :: !IsUpload(Issued(net, r.net)[i])
  {
    UploadRequests(st, keys, net, p, silent, exportOf, iso);
  }

  /** Dropbox `upload` on a 401: the token is cleared, the credential marked
      revoked, nothing else changes, and from then on `upload` resolves
      false and `getUser` reports "no token", both without a request. */
  lemma DropboxUpload401Revokes(st: Storage, keys: set<string>, net: Net, exportOf: bool -> string, iso: string)
    requires Coherent(st, keys)
    requires TruthyAt(AllItems(st), TokenKey(Dropbox))
    requires Unauthorized(NextReply(net))
    ensures var r := DropboxUploadFlow(st, keys, net, exportOf, iso);
      var after := AllItems(r.st);
      && r.out == Resolved(false)
      && Lookup(after, TokenKey(Dropbox)) == None
      && Lookup(after, RevokedKey(Dropbox)) == Some(Bool(true))
      && AgreeExcept(after, WithEncryptDefault(AllItems(st), Dropbox), {TokenKey(Dropbox), RevokedKey(Dropbox)})
      && Keeps(st, r.st, keys)
      && (forall net2 :: DropboxUploadFlow(r.st, keys, net2, exportOf, iso).out == Resolved(false)
                      && DropboxUploadFlow(r.st, keys, net2, exportOf, iso).net == net2)
      && (forall net2 :: DropboxUserFlow(r.st, keys, net2) == Step(Resolved(Failure(NoTokenMessage)), r.st, net2))
  {
    EncryptByDefault(st, keys, Dropbox);
    var (snap, st1) := Defaulted(st, keys, Dropbox);
    assert TruthyAt(AllItems(st1), TokenKey(Dropbox));
    var r := DropboxUploadFlow(st, keys, net, exportOf, iso);
    assert r.st == Written(st1, keys, RevokeAccess(snap, Dropbox)) && r.out == Resolved(false);
    WriteBack(st1, keys, RevokeAccess(snap, Dropbox));
    DropboxLoggedOut(r.st, keys, exportOf, iso);
  }

  /** With no Dropbox token stored, `upload` resolves false and `getUser`
      reports "no token", neither making a request. */
  lemma DropboxLoggedOut(st: Storage, keys: set<string>, exportOf: bool -> string, iso: string)
    requires Coherent(st, keys) && !TruthyAt(AllItems(st), TokenKey(Dropbox))
    ensures forall net2 :: DropboxUploadFlow(st, keys, net2, exportOf, iso).out == Resolved(false)
                        && DropboxUploadFlow(st, keys, net2, exportOf, iso).net == net2
    ensures forall net2 :: DropboxUserFlow(st, keys, net2) == Step(Resolved(Failure(NoTokenMessage)), st, net2)
  {
    forall net2
      ensures DropboxUploadFlow(st, keys, net2, exportOf, iso).out == Resolved(false)
      ensures DropboxUploadFlow(st, keys, net2, exportOf, iso).net == net2
    {
      EncryptByDefault(st, keys, Dropbox);
      var (snap, st1) := Defaulted(st, keys, Dropbox);
      assert Lookup(AllItems(st1), TokenKey(Dropbox)) == Lookup(AllItems(st), TokenKey(Dropbox));
    }
  }

  /** Dropbox `getUser` on a 401: the same revocation as `upload`. */
  lemma DropboxUser401Revokes(st: Storage, keys: set<string>, net: Net)
    requires Coherent(st, keys)
    requires TruthyAt(AllItems(st), TokenKey(Dropbox))
    requires Unauthorized(NextReply(net))
    ensures var r := DropboxUserFlow(st, keys, net);
      var after := AllItems(r.st);
      && r.out == Resolved(Failure(Unauthorized401Message))
      && Lookup(after, TokenKey(Dropbox)) == None
      && Lookup(after, RevokedKey(Dropbox)) == Some(Bool(true))
      && AgreeExcept(after, AllItems(st), {TokenKey(Dropbox), RevokedKey(Dropbox)})
      && Keeps(st, r.st, keys)
  {
    WriteBack(st, keys, RevokeAccess(AllItems(st), Dropbox));
  }

  // ---------------------------------------------------------------------
  // Account identity.

  /** Without a cached token `getUser` reports an error text and never
      asks for the account. */
  lemma NoTokenNoAccount(st: Storage, keys: set<string>, net: Net, p: Provider, silent: bool)
    requires !TruthyAt(AllItems(st), TokenKey(p))
    ensures var r := UserFlow(st, keys, net, p, silent);
      && Extends(net, r.net)
      && (r.out.Resolved? ==> r.out.value == Failure(if p == Dropbox then NoTokenMessage else RevokedMessage))
      && forall i | 0 <= i < |Issued(net, r.net)| :: !Issued(net, r.net)[i].AccountInfo? && !Issued(net, r.net)[i].DropboxAccount?
  {
    if p != Dropbox {
      var t := GetToken(st, keys, net, p, silent);
      var r := UserFlow(st, keys, net, p, silent);
      GetTokenRequests(st, keys, net, p, silent);
      assert r.net == t.net && (r.out.Resolved? ==> r.out.value == Failure(RevokedMessage));
      TokenRequestsNoAccount(p, silent, Issued(net, t.net));
    }
  }

  lemma TokenRequestsNoAccount(p: Provider, silent: bool, issued: seq<Request>)
    requires TokenRequests(p, silent, issued)
    ensures forall i | 0 <= i < |issued| :: !issued[i].AccountInfo? && !issued[i].DropboxAccount?
  {
  }
}
