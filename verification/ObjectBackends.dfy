/** The two object backends: the names and contents they take, and what becomes of the names. */
module ObjectBackends {
  import opened Prelude
  import opened Artifacts

  /** Both have a size limit; the local one a root directory, as the parts of its absolute path. */
  datatype Backend =
    | LocalObjectStorage(root: seq<string>, maxSizeBytes: nat)
    | S3ObjectStorage(maxSizeBytes: nat)

  const DEFAULT_MAX_SIZE := 50 * 1024 * 1024

  /** f"{key}/v{version}" */
  function ObjectName(id: VersionId): string {
    id.key + "/v" + Digits(id.version)
  }

  lemma {:induction false} DigitsAreDigits(n: nat)
    ensures Digits(n) != "" && '/' !in Digits(n) && (n >= 10 ==> |Digits(n)| >= 2) && (n < 10 ==> |Digits(n)| == 1)
  {
    if n >= 10 { DigitsAreDigits(n / 10); }
  }

  lemma DigitsEnd(n: nat)
    ensures Digits(n) != "" && Digits(n)[|Digits(n)| - 1] == "0123456789"[n % 10]
    ensures Digits(n)[..|Digits(n)| - 1] == if n < 10 then "" else Digits(n / 10)
  {
  }

  lemma DigitOf(m: nat, n: nat)
    requires m < 10 && n < 10 && "0123456789"[m] == "0123456789"[n]
    ensures m == n
  {
  }

  lemma {:induction false} DigitsDiffer(m: nat, n: nat)
    requires Digits(m) == Digits(n)
    ensures m == n
    decreases m
  {
    hide Digits;
    DigitsAreDigits(m);
    DigitsAreDigits(n);
    DigitsEnd(m);
    DigitsEnd(n);
    DigitOf(m % 10, n % 10);
    if m >= 10 { DigitsDiffer(m / 10, n / 10); }
  }

  /** The part after the last slash is as long in both. */
  lemma LastPartIsNotLonger(x: string, s: string, y: string, t: string)
    requires x + "/" + s == y + "/" + t && '/' !in t
    ensures |t| <= |s|
  {
    var b := y + "/" + t;
    assert (x + "/" + s)[|x|] == '/';
    assert b[|x|] == '/';
    assert forall k :: |y| < k < |b| ==> b[k] == t[k - |y| - 1];
  }

  lemma SplitAtLastSlash(x: string, s: string, y: string, t: string)
    requires x + "/" + s == y + "/" + t && '/' !in s && '/' !in t
    ensures x == y && s == t
  {
    LastPartIsNotLonger(x, s, y, t);
    LastPartIsNotLonger(y, t, x, s);
    var a, b := x + "/" + s, y + "/" + t;
    assert x == a[..|x|] && y == b[..|y|];
    assert s == a[|x| + 1..] && t == b[|y| + 1..];
  }

  /** Different versions have different objects. */
  lemma ObjectNamesDiffer(x: VersionId, y: VersionId)
    requires ObjectName(x) == ObjectName(y)
    ensures x == y
  {
    var s, t := "v" + Digits(x.version), "v" + Digits(y.version);
    DigitsAreDigits(x.version);
    DigitsAreDigits(y.version);
    assert ObjectName(x) == x.key + "/" + s && ObjectName(y) == y.key + "/" + t;
    SplitAtLastSlash(x.key, s, y.key, t);
    assert Digits(x.version) == s[1..] && Digits(y.version) == t[1..];
    DigitsDiffer(x.version, y.version);
  }

  function ByteCount(c: char): nat {
    var code := c as int;
    if code < 0x80 then 1 else if code < 0x800 then 2 else if code < 0x1_0000 then 3 else 4
  }

  /** len(content.encode("utf-8")) */
  function ByteLength(content: string): nat {
    if content == "" then 0 else ByteCount(content[0]) + ByteLength(content[1..])
  }

  lemma {:induction false} AsciiLength(content: string)
    requires forall k :: 0 <= k < |content| ==> content[k] as int < 0x80
    ensures ByteLength(content) == |content|
  {
    if content != "" { AsciiLength(content[1..]); }
  }

  // ---- paths ----------------------------------------------------------------------------

  /** The parts of a name between its slashes; an empty name has one empty part. */
  function Split(name: string): (parts: seq<string>)
    ensures parts != []
  {
    if name == "" then [""]
    else
      var rest := Split(name[1..]);
      if name[0] == '/' then [""] + rest else [[name[0]] + rest[0]] + rest[1..]
  }

  function Join(parts: seq<string>): string
    requires parts != []
  {
    if |parts| == 1 then parts[0] else parts[0] + "/" + Join(parts[1..])
  }

  /** A part that a path keeps as it is. */
  predicate IsPlain(part: string) {
    part != "" && part != "." && part != ".." && '/' !in part
  }

  predicate AllPlain(parts: seq<string>) {
    forall k :: 0 <= k < |parts| ==> IsPlain(parts[k])
  }

  /** A name in normal relative form. */
  predicate Normal(name: string) {
    AllPlain(Split(name))
  }

  /** Path resolution, part by part, from the directory `at`. */
  function Walk(at: seq<string>, parts: seq<string>): seq<string>
    decreases |parts|
  {
    if parts == [] then at
    else if parts[0] == "" || parts[0] == "." then Walk(at, parts[1..])
    else if parts[0] == ".." then Walk(if at == [] then [] else at[..|at| - 1], parts[1..])
    else Walk(at + [parts[0]], parts[1..])
  }

  /** The file of an object below `root`. */
  function PathOf(root: seq<string>, name: string): seq<string> {
    Walk(root, Split(name))
  }

  predicate Below(root: seq<string>, path: seq<string>) {
    root < path
  }

  // ---- what they take ----------------------------------------------------------------------

  /** A put raises exactly when this fails: a name that is not relative or does not lead below the root, or a
      content over the limit. */
  predicate Takes(b: Backend, name: string, content: string) {
    && ByteLength(content) <= b.maxSizeBytes
    && name != "" && name[0] != '/'
    && match b
       case LocalObjectStorage(root, _) => Below(root, PathOf(root, name))
       case S3ObjectStorage(_) => ".." !in Split(name)
  }

  function AcceptanceOf(b: Backend): Acceptance {
    (id: VersionId, content: string) => Takes(b, ObjectName(id), content)
  }

  /** Neither takes an object of a workspace with an absolute root. */
  lemma AbsoluteRootsAreRefused(b: Backend, workspaceRoot: string, filename: string, v: nat, content: string)
    requires workspaceRoot != "" && workspaceRoot[0] == '/'
    ensures !AcceptanceOf(b)(VersionId(IdentityKey(workspaceRoot, filename), v), content)
  {
    var name := ObjectName(VersionId(IdentityKey(workspaceRoot, filename), v));
    assert name[0] == workspaceRoot[0];
  }

  lemma {:induction false} WalkPlain(at: seq<string>, parts: seq<string>)
    requires AllPlain(parts)
    ensures Walk(at, parts) == at + parts
    decreases |parts|
  {
    if parts == [] {
      assert at + parts == at;
    } else {
      WalkPlain(at + [parts[0]], parts[1..]);
      assert at + [parts[0]] + parts[1..] == at + parts;
    }
  }

  /** Both take every name in normal form whose content is within the limit. */
  lemma NormalNamesAreTaken(b: Backend, name: string, content: string)
    requires Normal(name) && ByteLength(content) <= b.maxSizeBytes
    ensures Takes(b, name, content)
  {
    assert IsPlain(Split(name)[0]);
    if b.LocalObjectStorage? { WalkPlain(b.root, Split(name)); }
    assert forall k :: 0 <= k < |Split(name)| ==> IsPlain(Split(name)[k]);
  }

  // ---- what the local backend lists ------------------------------------------------------------

  type Files = map<seq<string>, string>

  /** All files lie below the root, at resolved paths. */
  predicate FilesOk(root: seq<string>, files: Files) {
    forall path :: path in files ==> Below(root, path) && AllPlain(path[|root|..])
  }

  function PutFile(root: seq<string>, files: Files, name: string, content: string): Files {
    files[PathOf(root, name) := content]
  }

  function GetFile(root: seq<string>, files: Files, name: string): Option<string> {
    if PathOf(root, name) in files then Some(files[PathOf(root, name)]) else None
  }

  /** The name under which list_ids gives back the object of this name. */
  function ListedName(root: seq<string>, name: string): string
    requires Below(root, PathOf(root, name))
  {
    Join(PathOf(root, name)[|root|..])
  }

  function ListIds(root: seq<string>, files: Files): set<string>
    requires FilesOk(root, files)
  {
    set path | path in files :: Join(path[|root|..])
  }

  lemma {:induction false} SplitOnePart(part: string)
    requires '/' !in part
    ensures Split(part) == [part]
  {
    if part != "" {
      SplitOnePart(part[1..]);
      assert [part[0]] + part[1..] == part;
    }
  }

  lemma {:induction false} SplitPart(part: string, rest: string)
    requires '/' !in part
    ensures Split(part + "/" + rest) == [part] + Split(rest)
    decreases |part|
  {
    var name := part + "/" + rest;
    if part == "" {
      assert name[1..] == rest;
    } else {
      SplitPart(part[1..], rest);
      assert name[1..] == part[1..] + "/" + rest;
      assert [part[0]] + part[1..] == part;
    }
  }

  lemma {:induction false} SplitOfJoin(parts: seq<string>)
    requires parts != [] && AllPlain(parts)
    ensures Split(Join(parts)) == parts
    decreases |parts|
  {
    assert IsPlain(parts[0]);
    if |parts| == 1 {
      SplitOnePart(parts[0]);
    } else {
      SplitOfJoin(parts[1..]);
      SplitPart(parts[0], Join(parts[1..]));
    }
  }

  lemma {:induction false} JoinOfSplit(name: string)
    ensures Join(Split(name)) == name
  {
    if name != "" {
      JoinOfSplit(name[1..]);
      var rest := Split(name[1..]);
      if name[0] == '/' {
        assert ([""] + rest)[1..] == rest;
      } else if |rest| > 1 {
        assert ([[name[0]] + rest[0]] + rest[1..])[1..] == rest[1..];
      }
      assert [name[0]] + name[1..] == name;
    }
  }

  /** Whatever a walk adds above its start is plain. */
  lemma {:induction false} WalkAddsPlain(at: seq<string>, parts: seq<string>, k: nat)
    requires forall i :: k <= i < |at| ==> IsPlain(at[i])
    requires forall i :: 0 <= i < |parts| ==> '/' !in parts[i]
    ensures forall i :: k <= i < |Walk(at, parts)| ==> IsPlain(Walk(at, parts)[i])
    decreases |parts|
  {
    if parts != [] {
      if parts[0] == "" || parts[0] == "." {
        WalkAddsPlain(at, parts[1..], k);
      } else if parts[0] == ".." {
        WalkAddsPlain(if at == [] then [] else at[..|at| - 1], parts[1..], k);
      } else {
        WalkAddsPlain(at + [parts[0]], parts[1..], k);
      }
    }
  }

  lemma {:induction false} PartsHaveNoSlash(name: string)
    ensures forall i :: 0 <= i < |Split(name)| ==> '/' !in Split(name)[i]
  {
    if name != "" { PartsHaveNoSlash(name[1..]); }
  }

  lemma PathIsPlain(root: seq<string>, name: string)
    requires Below(root, PathOf(root, name))
    ensures AllPlain(PathOf(root, name)[|root|..])
  {
    PartsHaveNoSlash(name);
    WalkAddsPlain(root, Split(name), |root|);
  }

  lemma PutKeepsFiles(root: seq<string>, files: Files, name: string, content: string)
    requires FilesOk(root, files) && Below(root, PathOf(root, name))
    ensures FilesOk(root, PutFile(root, files, name, content))
  {
    PathIsPlain(root, name);
  }

  /** The listing gives an object back under its own name exactly when that name is in normal form. */
  lemma ListedAsIsIffNormal(root: seq<string>, name: string)
    requires Below(root, PathOf(root, name))
    ensures ListedName(root, name) == name <==> Normal(name)
  {
    PathIsPlain(root, name);
    SplitOfJoin(PathOf(root, name)[|root|..]);
    if Normal(name) {
      WalkPlain(root, Split(name));
      assert PathOf(root, name)[|root|..] == Split(name);
      JoinOfSplit(name);
    }
  }

  /** Two names in normal form never share a file. */
  lemma NormalNamesAreDistinct(root: seq<string>, x: string, y: string)
    requires Normal(x) && Normal(y) && PathOf(root, x) == PathOf(root, y)
    ensures x == y
  {
    WalkPlain(root, Split(x));
    WalkPlain(root, Split(y));
    assert Split(x) == PathOf(root, x)[|root|..] == Split(y);
    JoinOfSplit(x);
    JoinOfSplit(y);
  }

  /** The listing as a map from names to contents: the objects, as the artifact store sees them. */
  ghost predicate Shows(root: seq<string>, files: Files, name: string, content: string) {
    exists path :: path in files && Below(root, path) && Join(path[|root|..]) == name && files[path] == content
  }

  /** Main theorem. A put makes the listing show exactly the object of that name and leaves all others as they
      were, for names in normal form; under any other name the object is never shown. */
  lemma PutShowsIffNormal(root: seq<string>, files: Files, name: string, content: string)
    requires FilesOk(root, files) && Below(root, PathOf(root, name))
    ensures Shows(root, PutFile(root, files, name, content), name, content) <==> Normal(name)
    ensures Normal(name) ==> forall n, c :: Shows(root, PutFile(root, files, name, content), n, c) <==>
      if n == name then c == content else Shows(root, files, n, c)
  {
    hide Walk, Split, Join, IsPlain;
    var path := PathOf(root, name);
    var files' := PutFile(root, files, name, content);
    PutKeepsFiles(root, files, name, content);
    ListedAsIsIffNormal(root, name);
    forall p | p in files' && Join(p[|root|..]) == name ensures Normal(name) && p == path {
      SplitOfJoin(p[|root|..]);
      SamePath(root, name, p);
    }
    if Normal(name) {
      assert path in files' && Join(path[|root|..]) == name;
      forall n, c ensures Shows(root, files', n, c) <==> if n == name then c == content else Shows(root, files, n, c) {
        if n != name { OtherShown(root, files, name, content, n, c); }
      }
    }
  }

  lemma SamePath(root: seq<string>, name: string, p: seq<string>)
    requires Below(root, p) && AllPlain(p[|root|..]) && Split(name) == p[|root|..]
    ensures Normal(name) && PathOf(root, name) == p
  {
    WalkPlain(root, Split(name));
    assert root + p[|root|..] == p;
  }

  lemma OtherShown(root: seq<string>, files: Files, name: string, content: string, n: string, c: string)
    requires FilesOk(root, files) && Below(root, PathOf(root, name)) && ListedName(root, name) == name && n != name
    ensures Shows(root, PutFile(root, files, name, content), n, c) <==> Shows(root, files, n, c)
  {
    hide Walk, Split, Join, IsPlain;
    var files' := PutFile(root, files, name, content);
    if Shows(root, files', n, c) {
      var p :| p in files' && Below(root, p) && Join(p[|root|..]) == n && files'[p] == c;
      assert p in files;
    }
    if Shows(root, files, n, c) {
      var p :| p in files && Below(root, p) && Join(p[|root|..]) == n && files[p] == c;
      assert p in files' && files'[p] == c;
    }
  }

  /** What a cleanup leaves that deletes every listed name that is not known. */
  function Cleaned(root: seq<string>, files: Files, known: set<string>): Files
    requires FilesOk(root, files)
  {
    files - set name | name in ListIds(root, files) - known :: PathOf(root, name)
  }

  /** A listed name leads back to its file. */
  lemma ListedNameIsFound(root: seq<string>, path: seq<string>)
    requires Below(root, path) && AllPlain(path[|root|..])
    ensures PathOf(root, Join(path[|root|..])) == path
  {
    SplitOfJoin(path[|root|..]);
    WalkPlain(root, path[|root|..]);
    assert root + path[|root|..] == path;
  }

  lemma CleanedKeepsKnown(root: seq<string>, files: Files, known: set<string>, path: seq<string>)
    requires FilesOk(root, files) && path in files
    ensures path in Cleaned(root, files, known) <==> Join(path[|root|..]) in known
  {
    hide Walk, Split, Join, IsPlain, PathOf;
    var name := Join(path[|root|..]);
    ListedNameIsFound(root, path);
    assert name in ListIds(root, files);
    var gone := set n | n in ListIds(root, files) - known :: PathOf(root, n);
    if path in gone {
      var n :| n in ListIds(root, files) - known && PathOf(root, n) == path;
      var p :| p in files && Join(p[|root|..]) == n;
      ListedNameIsFound(root, p);
    }
  }

  /** Where the local backend falls short: a cleanup keeps the object of a known name exactly when the name
      under which it is listed is known too, which is the same name only when that is in normal form. */
  lemma CleanupKeepsIffListedNameKnown(root: seq<string>, files: Files, name: string, content: string, known: set<string>)
    requires FilesOk(root, files) && Below(root, PathOf(root, name)) && name in known
    ensures FilesOk(root, PutFile(root, files, name, content))
    ensures GetFile(root, Cleaned(root, PutFile(root, files, name, content), known), name) == Some(content)
            <==> ListedName(root, name) in known
    ensures ListedName(root, name) == name <==> Normal(name)
  {
    PutKeepsFiles(root, files, name, content);
    ListedAsIsIffNormal(root, name);
    CleanedKeepsKnown(root, PutFile(root, files, name, content), known, PathOf(root, name));
  }

  /** The failing input: the object of a file "a//b" is deleted by a cleanup although its row is there. */
  lemma CleanupTakesRewrittenName(root: seq<string>, content: string)
    ensures var name := ObjectName(VersionId(IdentityKey("", "a//b"), 1));
      && Takes(LocalObjectStorage(root, ByteLength(content)), name, content)
      && FilesOk(root, PutFile(root, map[], name, content))
      && GetFile(root, PutFile(root, map[], name, content), name) == Some(content)
      && GetFile(root, Cleaned(root, PutFile(root, map[], name, content), {name}), name) == None
  {
    var name := "::a//b/v1";
    assert Digits(1) == "1";
    assert ObjectName(VersionId(IdentityKey("", "a//b"), 1)) == name;
    SplitsRewritten();
    var path := root + ["::a", "b", "v1"];
    WalkSkips(root);
    CleanupKeepsIffListedNameKnown(root, map[], name, content, {name});
  }

  lemma SplitsRewritten()
    ensures Split("::a//b/v1") == ["::a", "", "b", "v1"]
  {
    SplitOnePart("v1");
    SplitPart("b", "v1");
    SplitPart("", "b/v1");
    SplitPart("::a", "/b/v1");
    assert "b" + "/" + "v1" == "b/v1";
    assert "" + "/" + "b/v1" == "/b/v1";
    assert "::a" + "/" + "/b/v1" == "::a//b/v1";
    assert [""] + (["b"] + ["v1"]) == ["", "b", "v1"];
    assert ["::a"] + ["", "b", "v1"] == ["::a", "", "b", "v1"];
  }

  lemma WalkSkips(root: seq<string>)
    ensures PathOf(root, "::a//b/v1") == root + ["::a", "b", "v1"] && !Normal("::a//b/v1")
  {
    SplitsRewritten();
    var parts := ["::a", "", "b", "v1"];
    assert !IsPlain(parts[1]);
    WalkPlain(root + ["::a"], ["b", "v1"]);
    assert parts[1..] == ["", "b", "v1"] && parts[1..][1..] == ["b", "v1"];
    assert root + ["::a"] + ["b", "v1"] == root + ["::a", "b", "v1"];
  }
}
