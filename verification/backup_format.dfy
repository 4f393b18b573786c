/** The strings the backup providers build: the backup file name, the
    Dropbox upload argument, the Drive multipart body and the OneDrive
    token-request scope. */
module BackupFormat {
  import opened Values

  // ---------------------------------------------------------------------
  // File name.

  /** `s.replace(/-/g, "")` */
  function RemoveDashes(s: string): (r: string)
    ensures forall i :: 0 <= i < |r| ==> r[i] != '-'
    ensures |r| <= |s|
  {
    if s == [] then []
    else (if s[0] == '-' then [] else [s[0]]) + RemoveDashes(s[1..])
  }

  /** `new Date().toISOString().slice(0, 10).replace(/-/g, "") + ".json"`,
      the clock's ISO-8601 text being the parameter. */
  function BackupFileName(iso: string): string {
    RemoveDashes(iso[..if |iso| < 10 then |iso| else 10]) + ".json"
  }

  lemma {:induction false} RemoveDashesAppend(a: string, b: string)
    ensures RemoveDashes(a + b) == RemoveDashes(a) + RemoveDashes(b)
  {
    if a != [] {
      assert (a + b)[1..] == a[1..] + b;
      RemoveDashesAppend(a[1..], b);
    } else {
      assert a + b == b;
    }
  }

  lemma {:induction false} RemoveDashesKeepsPlain(s: string)
    requires forall i :: 0 <= i < |s| ==> s[i] != '-'
    ensures RemoveDashes(s) == s
  {
    if s != [] {
      RemoveDashesKeepsPlain(s[1..]);
    }
  }

  /** An ISO timestamp `YYYY-MM-DD…` names the file `YYYYMMDD.json`. */
  lemma FileNameOfIsoDate(iso: string)
    requires |iso| >= 10 && iso[4] == '-' && iso[7] == '-'
    requires forall i :: 0 <= i < 10 && i != 4 && i != 7 ==> iso[i] != '-'
    ensures BackupFileName(iso) == iso[0..4] + iso[5..7] + iso[8..10] + ".json"
    ensures |BackupFileName(iso)| == 13
  {
    var d := iso[..10];
    assert d == iso[0..4] + "-" + iso[5..7] + "-" + iso[8..10];
    RemoveDashesAppend(iso[0..4] + "-" + iso[5..7] + "-", iso[8..10]);
    RemoveDashesAppend(iso[0..4] + "-" + iso[5..7], "-");
    RemoveDashesAppend(iso[0..4] + "-", iso[5..7]);
    RemoveDashesAppend(iso[0..4], "-");
    RemoveDashesKeepsPlain(iso[0..4]);
    RemoveDashesKeepsPlain(iso[5..7]);
    RemoveDashesKeepsPlain(iso[8..10]);
    assert RemoveDashes("-") == "";
  }

  // ---------------------------------------------------------------------
  // JSON text.

  function HexDigit(d: int): char
    requires 0 <= d < 16
  {
    "0123456789abcdef"[d]
  }

  /** How `JSON.stringify` writes one character inside a string literal. */
  function EscapeChar(c: char): string {
    if c == '"' then "\\\""
    else if c == '\\' then "\\\\"
    else if c == '\n' then "\\n"
    else if c == '\r' then "\\r"
    else if c == '\t' then "\\t"
    else if c as int == 8 then "\\b"
    else if c as int == 12 then "\\f"
    else if c as int < 32 then "\\u00" + [HexDigit(c as int / 16), HexDigit(c as int % 16)]
    else [c]
  }

  function Escaped(s: string): string {
    if s == [] then [] else EscapeChar(s[0]) + Escaped(s[1..])
  }

  /** `JSON.stringify(s)` for a string `s`. */
  function JsonQuote(s: string): string {
    "\"" + Escaped(s) + "\""
  }

  /** A character `JSON.stringify` copies as it is. */
  predicate Plain(c: char) {
    c != '"' && c != '\\' && c as int >= 32
  }

  lemma {:induction false} EscapedPlain(s: string)
    requires forall i :: 0 <= i < |s| ==> Plain(s[i])
    ensures Escaped(s) == s
  {
    if s != [] {
      EscapedPlain(s[1..]);
    }
  }

  // ---------------------------------------------------------------------
  // Dropbox.

  /** `JSON.stringify({path: "/<file>", mode: "add", autorename: true})`,
      the `Dropbox-API-Arg` header of an upload. */
  function DropboxApiArg(iso: string): string {
    "{\"path\":" + JsonQuote("/" + BackupFileName(iso)) + ",\"mode\":\"add\",\"autorename\":true}"
  }

  lemma {:induction false} EscapedAppend(a: string, b: string)
    ensures Escaped(a + b) == Escaped(a) + Escaped(b)
  {
    if a != [] {
      assert (a + b)[1..] == a[1..] + b;
      EscapedAppend(a[1..], b);
    } else {
      assert a + b == b;
    }
  }

  lemma JsonQuotePlain(s: string)
    requires forall i :: 0 <= i < |s| ==> Plain(s[i])
    ensures JsonQuote(s) == "\"" + s + "\""
  {
    EscapedPlain(s);
  }

  /** For an ISO timestamp of plain characters the argument names the path
      `/YYYYMMDD.json`, adds rather than overwrites, and auto-renames. */
  lemma DropboxApiArgOfIsoDate(iso: string)
    requires |iso| >= 10 && iso[4] == '-' && iso[7] == '-'
    requires forall i :: 0 <= i < 10 ==> Plain(iso[i])
    requires forall i :: 0 <= i < 10 && i != 4 && i != 7 ==> iso[i] != '-'
    ensures DropboxApiArg(iso) ==
      "{\"path\":\"/" + BackupFileName(iso) + "\",\"mode\":\"add\",\"autorename\":true}"
    ensures BackupFileName(iso) == iso[0..4] + iso[5..7] + iso[8..10] + ".json"
  {
    FileNameOfIsoDate(iso);
    PlainPath(iso);
    JsonQuotePlain("/" + BackupFileName(iso));
    var open, tail := "{\"path\":", ",\"mode\":\"add\",\"autorename\":true}";
    Regroup(open, "\"", "/", BackupFileName(iso), tail);
    assert "\"" + "/" == "\"/";
    assert open + "\"/" == "{\"path\":\"/";
  }

  lemma Regroup(p: string, q: string, s: string, b: string, t: string)
    ensures p + (q + (s + b) + q) + t == p + (q + s) + b + q + t
  {
  }

  lemma PlainPath(iso: string)
    requires |iso| >= 10
    requires forall i :: 0 <= i < 10 ==> Plain(iso[i])
    requires BackupFileName(iso) == iso[0..4] + iso[5..7] + iso[8..10] + ".json"
    ensures AllPlain("/" + BackupFileName(iso))
  {
    var y, m, d := iso[0..4], iso[5..7], iso[8..10];
    assert AllPlain(y) && AllPlain(m) && AllPlain(d);
    assert AllPlain("/") && AllPlain(".json");
    PlainAppend("/", y);
    PlainAppend("/" + y, m);
    PlainAppend("/" + y + m, d);
    PlainAppend("/" + y + m + d, ".json");
    assert "/" + BackupFileName(iso) == "/" + y + m + d + ".json";
  }

  predicate AllPlain(s: string) {
    forall i :: 0 <= i < |s| ==> Plain(s[i])
  }

  lemma PlainAppend(a: string, b: string)
    requires AllPlain(a) && AllPlain(b)
    ensures AllPlain(a + b)
  {
    forall i | 0 <= i < |a + b|
      ensures Plain((a + b)[i])
    {
      if i >= |a| { assert (a + b)[i] == b[i - |a|]; }
    }
  }

  // ---------------------------------------------------------------------
  // Drive.

  const Boundary := "--segment_marker"
  const Closing := "--segment_marker--"

  /** `JSON.stringify` of a one-element `parents` array; a folder id that is
      not a string (normally `undefined`) is written `null`. */
  function ParentJson(folder: Option<Value>): string {
    if folder.Some? && folder.value.Str? then JsonQuote(folder.value.s) else "null"
  }

  /** The metadata part: `JSON.stringify({name: "<file>", parents: [folder]})`. */
  function DriveMetadata(iso: string, folder: Option<Value>): string {
    "{\"name\":" + JsonQuote(BackupFileName(iso)) + ",\"parents\":[" + ParentJson(folder) + "]}"
  }

  /** For an ISO timestamp and a folder id of plain characters the metadata
      line is `{"name":"YYYYMMDD.json","parents":["<id>"]}`; with no folder
      id cached the parent is written `null`. */
  lemma DriveMetadataOfIsoDate(iso: string, id: string)
    requires |iso| >= 10 && iso[4] == '-' && iso[7] == '-'
    requires forall i :: 0 <= i < 10 ==> Plain(iso[i])
    requires forall i :: 0 <= i < 10 && i != 4 && i != 7 ==> iso[i] != '-'
    requires AllPlain(id)
    ensures DriveMetadata(iso, Some(Str(id))) ==
      "{\"name\":\"" + BackupFileName(iso) + "\",\"parents\":[\"" + id + "\"]}"
    ensures DriveMetadata(iso, None) ==
      "{\"name\":\"" + BackupFileName(iso) + "\",\"parents\":[null]}"
    ensures BackupFileName(iso) == iso[0..4] + iso[5..7] + iso[8..10] + ".json"
  {
    FileNameOfIsoDate(iso);
    PlainName(iso);
    var name := BackupFileName(iso);
    JsonQuotePlain(name);
    JsonQuotePlain(id);
    MetadataRegroup(name, id);
  }

  /** The file name of an ISO timestamp of plain characters is plain. */
  lemma PlainName(iso: string)
    requires |iso| >= 10
    requires forall i :: 0 <= i < 10 ==> Plain(iso[i])
    requires BackupFileName(iso) == iso[0..4] + iso[5..7] + iso[8..10] + ".json"
    ensures AllPlain(BackupFileName(iso))
  {
    PlainPath(iso);
    var name := BackupFileName(iso);
    forall i | 0 <= i < |name|
      ensures Plain(name[i])
    {
      assert name[i] == ("/" + name)[i + 1];
    }
  }

  lemma MetadataRegroup(name: string, id: string)
    ensures "{\"name\":" + ("\"" + name + "\"") + ",\"parents\":[" + ("\"" + id + "\"") + "]}"
         == "{\"name\":\"" + name + "\",\"parents\":[\"" + id + "\"]}"
    ensures "{\"name\":" + ("\"" + name + "\"") + ",\"parents\":[" + "null" + "]}"
         == "{\"name\":\"" + name + "\",\"parents\":[null]}"
  {
    Regroup6("{\"name\":", "\"", name, ",\"parents\":[", id, "]}");
    Regroup6("{\"name\":", "\"", name, ",\"parents\":[", "null", "]}");
  }

  /** Only associativity: the quote marks join the text around them. */
  lemma Regroup6(o: string, q: string, n: string, m: string, p: string, c: string)
    ensures o + (q + n + q) + m + (q + p + q) + c == (o + q) + n + (q + m + q) + p + (q + c)
    ensures o + (q + n + q) + m + p + c == (o + q) + n + (q + m + p + c)
  {
  }

  /** The ten lines of `requestDataPrototype`. */
  function DriveRequestLines(iso: string, folder: Option<Value>, backup: string): seq<string> {
    [ Boundary,
      "Content-Type: application/json; charset=UTF-8",
      "",
      DriveMetadata(iso, folder),
      "",
      Boundary,
      "Content-Type: application/octet-stream",
      "",
      backup,
      Closing ]
  }

  /** Each line followed by a newline. */
  function Lines(lines: seq<string>): string {
    if lines == [] then "" else Lines(lines[..|lines| - 1]) + lines[|lines| - 1] + "\n"
  }

  lemma LinesSnoc(a: seq<string>, x: string)
    ensures Lines(a + [x]) == Lines(a) + x + "\n"
  {
    assert (a + [x])[..|a|] == a;
  }

  lemma {:induction false} LinesAppend(a: seq<string>, b: seq<string>)
    ensures Lines(a + b) == Lines(a) + Lines(b)
  {
    if b != [] {
      var b' := b[..|b| - 1];
      assert a + b == (a + b') + [b[|b| - 1]];
      assert b == b' + [b[|b| - 1]];
      LinesAppend(a, b');
      LinesSnoc(a + b', b[|b| - 1]);
      LinesSnoc(b', b[|b| - 1]);
    } else {
      assert a + b == a;
    }
  }

  /** The `forEach` that appends every line and a newline to `requestData`. */
  method BuildRequestData(lines: seq<string>) returns (data: string)
    ensures data == Lines(lines)
    ensures |data| >= |lines|
  {
    data := "";
    var i := 0;
    while i < |lines|
      invariant 0 <= i <= |lines|
      invariant data == Lines(lines[..i])
      invariant |data| >= i
    {
      assert lines[..i + 1][..i] == lines[..i];
      data := data + lines[i] + "\n";
      i := i + 1;
    }
    assert lines[..i] == lines;
  }

  /** The Drive multipart body: it opens with the boundary, the metadata
      line names the file and the parent folder, the backup text comes
      whole after the eight header lines, and the body ends with the
      closing boundary. */
  lemma DriveBodyShape(iso: string, folder: Option<Value>, backup: string)
    ensures var ls := DriveRequestLines(iso, folder, backup);
      var body := Lines(ls);
      && ls[3] == DriveMetadata(iso, folder)
      && body == Lines(ls[..8]) + backup + "\n" + Closing + "\n"
      && body[..|Boundary| + 1] == Boundary + "\n"
      && body[|body| - |Closing| - 1..] == Closing + "\n"
  {
    var ls := DriveRequestLines(iso, folder, backup);
    LinesLastTwo(ls);
    LinesCons(ls);
    PrefixLine(Boundary, Lines(ls[1..]));
    SuffixLine(Lines(ls[..8]) + backup + "\n", Closing);
  }

  /** The text of the first line opens the lines' text. */
  lemma LinesCons(ls: seq<string>)
    requires ls != []
    ensures Lines(ls) == ls[0] + "\n" + Lines(ls[1..])
  {
    assert ls == [ls[0]] + ls[1..];
    LinesAppend([ls[0]], ls[1..]);
    LinesSnoc([], ls[0]);
    assert [] + [ls[0]] == [ls[0]];
  }

  /** The last two lines close the lines' text. */
  lemma LinesLastTwo(ls: seq<string>)
    requires |ls| >= 2
    ensures Lines(ls) == Lines(ls[..|ls| - 2]) + ls[|ls| - 2] + "\n" + ls[|ls| - 1] + "\n"
  {
    var n := |ls|;
    var init := ls[..n - 1];
    assert Lines(ls) == Lines(init) + ls[n - 1] + "\n";
    assert init[..n - 2] == ls[..n - 2] && init[n - 2] == ls[n - 2];
    assert Lines(init) == Lines(ls[..n - 2]) + ls[n - 2] + "\n";
  }

  lemma PrefixLine(line: string, rest: string)
    ensures (line + "\n" + rest)[..|line| + 1] == line + "\n"
  {
  }

  lemma SuffixLine(init: string, line: string)
    ensures var t := init + line + "\n"; t[|t| - |line| - 1..] == line + "\n"
  {
  }

  // ---------------------------------------------------------------------
  // OneDrive.

  const FilesScope := "https%3A%2F%2Fgraph.microsoft.com%2FFiles.ReadWrite"
  const UserReadScope := "https%3A%2F%2Fgraph.microsoft.com%2FUser.Read"
  const OfflineScope := "offline_access"

  /** The `scope` parameter of the OneDrive refresh request. */
  function OneDriveScope(business: bool): string {
    FilesScope + (if !business then ".AppFolder" else "") + "%20" + UserReadScope + "%20" + OfflineScope
  }

  /** `t` occurs in `s` as a contiguous piece. */
  predicate Occurs(t: string, s: string) {
    exists i | 0 <= i <= |s| - |t| :: OccursAt(t, s, i)
  }

  /** `t` occurs in `s` starting at index `i`. */
  predicate OccursAt(t: string, s: string, i: int) {
    0 <= i <= |s| - |t| && s[i..i + |t|] == t
  }

  /** No `.` in `s` is followed by an `A`, so `.AppFolder` cannot occur. */
  predicate NoDotA(s: string) {
    forall i :: 0 <= i < |s| - 1 ==> !(s[i] == '.' && s[i + 1] == 'A')
  }

  lemma NoDotAAppend(a: string, b: string)
    requires NoDotA(a) && NoDotA(b)
    requires a != [] && b != [] && a[|a| - 1] != '.'
    ensures NoDotA(a + b)
  {
    forall i | 0 <= i < |a + b| - 1
      ensures !((a + b)[i] == '.' && (a + b)[i + 1] == 'A')
    {
      if i >= |a| {
        assert (a + b)[i] == b[i - |a|] && (a + b)[i + 1] == b[i + 1 - |a|];
      } else if i < |a| - 1 {
        assert (a + b)[i] == a[i] && (a + b)[i + 1] == a[i + 1];
      }
    }
  }

  lemma NoDotAFilesHost()
    ensures NoDotA("https%3A%2F%2Fgraph.microsoft.com%2FFiles")
  {
  }

  lemma NoDotAFiles()
    ensures NoDotA(FilesScope)
  {
    assert FilesScope == "https%3A%2F%2Fgraph.microsoft.com%2FFiles" + ".ReadWrite";
    NoDotAFilesHost();
    assert NoDotA(".ReadWrite");
    NoDotAAppend("https%3A%2F%2Fgraph.microsoft.com%2FFiles", ".ReadWrite");
  }

  lemma NoDotAUserHost()
    ensures NoDotA("https%3A%2F%2Fgraph.microsoft.com%2FUser")
  {
  }

  lemma NoDotAUserRead()
    ensures NoDotA(UserReadScope)
  {
    assert UserReadScope == "https%3A%2F%2Fgraph.microsoft.com%2FUser" + ".Read";
    NoDotAUserHost();
    assert NoDotA(".Read");
    NoDotAAppend("https%3A%2F%2Fgraph.microsoft.com%2FUser", ".Read");
  }

  /** `.AppFolder` inside `s` puts an `A` right after a `.`. */
  lemma AppFolderBreaksNoDotA(s: string)
    requires Occurs(".AppFolder", s)
    ensures !NoDotA(s)
  {
    var i :| 0 <= i <= |s| - 10 && OccursAt(".AppFolder", s, i);
    assert s[i..i + 10] == ".AppFolder";
    assert s[i] == s[i..i + 10][0] && s[i + 1] == s[i..i + 10][1];
  }

  /** Joining five pieces none of which has `.A`, where no piece but the
      last ends with a `.`, gives a string without `.A`. */
  lemma NoDotAJoin(a: string, b: string, c: string, d: string, e: string)
    requires NoDotA(a) && NoDotA(b) && NoDotA(c) && NoDotA(d) && NoDotA(e)
    requires a != [] && b != [] && c != [] && d != [] && e != []
    requires a[|a| - 1] != '.' && b[|b| - 1] != '.' && c[|c| - 1] != '.' && d[|d| - 1] != '.'
    ensures NoDotA(a + b + c + d + e)
  {
    NoDotAAppend(a, b);
    NoDotAAppend(a + b, c);
    NoDotAAppend(a + b + c, d);
    NoDotAAppend(a + b + c + d, e);
  }

  lemma NoDotABusinessScope()
    ensures NoDotA(OneDriveScope(true))
  {
    NoDotAFiles();
    NoDotAUserRead();
    assert NoDotA("%20") && NoDotA(OfflineScope);
    assert OneDriveScope(true) == FilesScope + "%20" + UserReadScope + "%20" + OfflineScope;
    NoDotAJoin(FilesScope, "%20", UserReadScope, "%20", OfflineScope);
  }

  lemma OccursMiddle(a: string, t: string, b: string)
    ensures Occurs(t, a + t + b)
  {
    var s := a + t + b;
    assert |s| == |a| + |t| + |b|;
    forall k | 0 <= k < |t|
      ensures s[|a|..|a| + |t|][k] == t[k]
    {
      assert s[|a| + k] == t[k];
    }
    assert OccursAt(t, s, |a|);
  }

  /** Each of the pieces of a scope joined as the OneDrive one is occurs in it. */
  lemma ScopePiecesOccur(f: string, x: string, u: string, o: string, sep: string)
    ensures Occurs(x, f + x + sep + u + sep + o)
    ensures Occurs(u, f + x + sep + u + sep + o)
    ensures Occurs(o, f + x + sep + u + sep + o)
  {
    assert f + x + sep + u + sep + o == f + x + (sep + u + sep + o);
    OccursMiddle(f, x, sep + u + sep + o);
    assert f + x + sep + u + sep + o == (f + x + sep) + u + (sep + o);
    OccursMiddle(f + x + sep, u, sep + o);
    assert f + x + sep + u + sep + o == (f + x + sep + u + sep) + o + [];
    OccursMiddle(f + x + sep + u + sep, o, []);
  }

  /** The scope restricts file access to the app folder exactly when the
      account is not a business account; either way it asks for the user
      profile and for offline access. */
  lemma OneDriveScopePermissions(business: bool)
    ensures Occurs(".AppFolder", OneDriveScope(business)) <==> !business
    ensures Occurs(UserReadScope, OneDriveScope(business))
    ensures Occurs(OfflineScope, OneDriveScope(business))
  {
    ScopePiecesOccur(FilesScope, if !business then ".AppFolder" else "", UserReadScope, OfflineScope, "%20");
    if business {
      NoDotABusinessScope();
      if Occurs(".AppFolder", OneDriveScope(business)) {
        AppFolderBreaksNoDotA(OneDriveScope(business));
        assert false;
      }
    }
  }
}
