/** Per-file upload policy of `scripts/deploy.js`: the MIME type of a file, whether it
    is uploaded gzip-compressed, the Cache-Control tier of its bucket key, and the
    argument vector handed to `aws s3api put-object`. */
module DeployPolicy {
  import opened Strings

  const OctetStream := "application/octet-stream"

  /** Lower-cased extension (with its dot) to MIME type. */
  const ContentTypes: map<string, string> := map[
    ".html" := "text/html",
    ".htm" := "text/html",
    ".css" := "text/css",
    ".js" := "application/javascript",
    ".mjs" := "application/javascript",
    ".json" := "application/json",
    ".xml" := "application/xml",
    ".txt" := "text/plain",
    ".md" := "text/markdown",
    ".svg" := "image/svg+xml",
    ".jpg" := "image/jpeg",
    ".jpeg" := "image/jpeg",
    ".png" := "image/png",
    ".gif" := "image/gif",
    ".webp" := "image/webp",
    ".ico" := "image/x-icon",
    ".pdf" := "application/pdf",
    ".zip" := "application/zip",
    ".woff" := "font/woff",
    ".woff2" := "font/woff2",
    ".ttf" := "font/ttf",
    ".otf" := "font/otf",
    ".eot" := "application/vnd.ms-fontobject"]

  /** The table lookup with its fallback: a listed extension gets its entry, any other
      `application/octet-stream`. */
  function MimeType(ext: string): (t: string)
    ensures t != ""
    ensures ext in ContentTypes ==> t == ContentTypes[ext]
    ensures ext !in ContentTypes ==> t == OctetStream
  {
    if ext in ContentTypes then ContentTypes[ext] else OctetStream
  }

  /** `getContentType(filePath)`: looked up by the lower-cased last extension. The type
      is one of the table's or the fallback, and a path without an extension always gets
      the fallback. */
  function ContentType(path: string): (t: string)
    ensures t != ""
    ensures t in ContentTypes.Values || t == OctetStream
    ensures Extname(path) == "" ==> t == OctetStream
  {
    MimeType(ToLower(Extname(path)))
  }

  lemma LowerExtOfFile(dir: string, stem: string, e: string)
    requires dir == "" || dir[|dir| - 1] == '/'
    requires stem != "" && '/' !in stem
    requires e != "" && '.' !in e && '/' !in e
    ensures ToLower(Extname(dir + stem + "." + e)) == "." + ToLower(e)
  {
    ExtnameOfFile(dir, stem, e);
    ToLowerConcat(".", e);
    assert ToLower(".") == ".";
  }

  /** The type of `stem.e` is the table entry for `.e` lower-cased, or
      `application/octet-stream` when there is none, whatever directory the file is in. */
  lemma ContentTypeOfFile(dir: string, stem: string, e: string)
    requires dir == "" || dir[|dir| - 1] == '/'
    requires stem != "" && '/' !in stem
    requires e != "" && '.' !in e && '/' !in e
    ensures ContentType(dir + stem + "." + e) == MimeType("." + ToLower(e))
    ensures "." + ToLower(e) in ContentTypes ==> ContentType(dir + stem + "." + e) == ContentTypes["." + ToLower(e)]
    ensures "." + ToLower(e) !in ContentTypes ==> ContentType(dir + stem + "." + e) == OctetStream
  {
    LowerExtOfFile(dir, stem, e);
  }

  /** Upper-case extensions are looked up like lower-case ones. */
  lemma ContentTypeIgnoresCase(dir: string, stem: string, e: string)
    requires dir == "" || dir[|dir| - 1] == '/'
    requires stem != "" && '/' !in stem
    requires e != "" && '.' !in e && '/' !in e
    ensures ContentType(dir + stem + "." + e) == ContentType(dir + stem + "." + ToLower(e))
  {
    var l := ToLower(e);
    ToLowerKeepsNonLetter(e, '.');
    ToLowerKeepsNonLetter(e, '/');
    ContentTypeOfFile(dir, stem, e);
    ContentTypeOfFile(dir, stem, l);
    ToLowerIdempotent(e);
  }

  /** A file name without a '.' is `application/octet-stream`. */
  lemma ContentTypeWithoutExtension(dir: string, name: string)
    requires dir == "" || dir[|dir| - 1] == '/'
    requires name != "" && '/' !in name && '.' !in name
    ensures ContentType(dir + name) == OctetStream
  {
    ExtnameOfPlainName(dir, name);
    var x := ToLower(Extname(dir + name));
    assert x == "";
    assert MimeType("") == OctetStream;
  }

  /** A dot-file such as `.html` has no extension, so it is `application/octet-stream`. */
  lemma ContentTypeOfDotFile(dir: string, e: string)
    requires dir == "" || dir[|dir| - 1] == '/'
    requires '.' !in e && '/' !in e
    ensures ContentType(dir + "." + e) == OctetStream
  {
    ExtnameOfDotFile(dir, e);
    var x := ToLower(Extname(dir + "." + e));
    assert x == "";
    assert MimeType("") == OctetStream;
  }

  const GzipExtensions: seq<string> :=
    [".html", ".htm", ".css", ".js", ".mjs", ".json", ".xml", ".txt", ".md", ".svg"]

  const GzipTypePrefixes: seq<string> :=
    ["text/", "application/javascript", "application/json", "application/xml", "image/svg+xml"]

  /** The MIME type starts with one of the compressible prefixes (the `some` over the list). */
  predicate HasGzipType(t: string) {
    IsPrefix(GzipTypePrefixes[0], t) || IsPrefix(GzipTypePrefixes[1], t) || IsPrefix(GzipTypePrefixes[2], t)
    || IsPrefix(GzipTypePrefixes[3], t) || IsPrefix(GzipTypePrefixes[4], t)
  }

  lemma GzipExtensionsHaveGzipTypes(ext: string)
    requires ext in GzipExtensions
    ensures ext in ContentTypes && HasGzipType(ContentTypes[ext])
  {
    if ext in [".html", ".htm", ".css", ".txt", ".md"] {
      TextExtensionsHaveGzipTypes(ext);
    } else {
      assert ext in [".js", ".mjs", ".json", ".xml", ".svg"];
      OtherExtensionsHaveGzipTypes(ext);
    }
  }

  lemma TextExtensionsHaveGzipTypes(ext: string)
    requires ext in [".html", ".htm", ".css", ".txt", ".md"]
    ensures ext in ContentTypes && HasGzipType(ContentTypes[ext])
  {
    var text := GzipTypePrefixes[0];
    if ext == ".html" {
      assert IsPrefix(text, ContentTypes[".html"]);
    } else if ext == ".htm" {
      assert IsPrefix(text, ContentTypes[".htm"]);
    } else if ext == ".css" {
      assert IsPrefix(text, ContentTypes[".css"]);
    } else if ext == ".txt" {
      assert IsPrefix(text, ContentTypes[".txt"]);
    } else {
      assert IsPrefix(text, ContentTypes[".md"]);
    }
  }

  lemma OtherExtensionsHaveGzipTypes(ext: string)
    requires ext in [".js", ".mjs", ".json", ".xml", ".svg"]
    ensures ext in ContentTypes && HasGzipType(ContentTypes[ext])
  {
    if ext == ".js" {
      assert IsPrefix(GzipTypePrefixes[1], ContentTypes[".js"]);
    } else if ext == ".mjs" {
      assert IsPrefix(GzipTypePrefixes[1], ContentTypes[".mjs"]);
    } else if ext == ".json" {
      assert IsPrefix(GzipTypePrefixes[2], ContentTypes[".json"]);
    } else if ext == ".xml" {
      assert IsPrefix(GzipTypePrefixes[3], ContentTypes[".xml"]);
    } else {
      assert IsPrefix(GzipTypePrefixes[4], ContentTypes[".svg"]);
    }
  }

  /** `shouldGzipFile(filePath)`. The extension list decides nothing on its own: every
      listed extension already has a compressible type, so the decision is the type test. */
  function ShouldGzip(path: string): (gz: bool)
    ensures gz == HasGzipType(ContentType(path))
  {
    var ext := ToLower(Extname(path));
    if ext in GzipExtensions then
      GzipExtensionsHaveGzipTypes(ext);
      true
    else
      HasGzipType(ContentType(path))
  }

  lemma DiffersAt(p: string, t: string, i: nat)
    requires i < |p| && i < |t| && p[i] != t[i]
    ensures !IsPrefix(p, t)
  {
    if |p| <= |t| {
      assert t[..|p|][i] == t[i];
    }
  }

  /** Binary fallbacks are sent as they are. */
  lemma OctetStreamNotGzipped(path: string)
    requires ContentType(path) == OctetStream
    ensures !ShouldGzip(path)
  {
    OctetStreamNotCompressible();
  }

  lemma OctetStreamNotCompressible()
    ensures !HasGzipType(OctetStream)
  {
    var t := OctetStream;
    DiffersAt(GzipTypePrefixes[0], t, 0);
    DiffersAt(GzipTypePrefixes[1], t, 12);
    DiffersAt(GzipTypePrefixes[2], t, 12);
    DiffersAt(GzipTypePrefixes[3], t, 12);
    DiffersAt(GzipTypePrefixes[4], t, 0);
  }

  /** PNG images are sent as they are. */
  lemma PngNotGzipped(dir: string, stem: string)
    requires dir == "" || dir[|dir| - 1] == '/'
    requires stem != "" && '/' !in stem
    ensures ContentType(dir + stem + ".png") == "image/png"
    ensures !ShouldGzip(dir + stem + ".png")
  {
    PngExtension(dir, stem);
    PngPathNotGzipped(dir + stem + ".png");
  }

  lemma PngExtension(dir: string, stem: string)
    requires dir == "" || dir[|dir| - 1] == '/'
    requires stem != "" && '/' !in stem
    ensures ToLower(Extname(dir + stem + ".png")) == ".png"
  {
    assert dir + stem + ".png" == dir + stem + "." + "png";
    LowerExtOfFile(dir, stem, "png");
    DotLowerPng();
  }

  lemma DotLowerPng()
    ensures "." + ToLower("png") == ".png"
  {
    assert ToLower("png") == "png";
  }

  lemma PngPathNotGzipped(path: string)
    requires ToLower(Extname(path)) == ".png"
    ensures ContentType(path) == "image/png"
    ensures !ShouldGzip(path)
  {
    PngType(path);
    ImageTypeNotGzipped(path);
  }

  lemma ImageTypeNotGzipped(path: string)
    requires ContentType(path) == "image/png"
    ensures !ShouldGzip(path)
  {
    PngNotCompressible();
  }

  lemma PngNotCompressible()
    ensures !HasGzipType("image/png")
  {
    var t := "image/png";
    DiffersAt(GzipTypePrefixes[0], t, 0);
    DiffersAt(GzipTypePrefixes[1], t, 0);
    DiffersAt(GzipTypePrefixes[2], t, 0);
    DiffersAt(GzipTypePrefixes[3], t, 0);
    DiffersAt(GzipTypePrefixes[4], t, 6);
  }

  lemma PngType(path: string)
    requires ToLower(Extname(path)) == ".png"
    ensures ContentType(path) == "image/png"
  {
    assert MimeType(".png") == "image/png";
  }

  const Immutable := "public, max-age=31536000, immutable"
  const HourHtml := "public, max-age=3600"
  const OneDay := "public, max-age=86400"

  /** The Cache-Control tier of a bucket key (section 5.2 of RFC 9111), chosen in
      `uploadFileWithMetadata`. */
  function CacheTier(key: string): (cc: string)
    ensures cc == Immutable || cc == HourHtml || cc == OneDay
    ensures cc == Immutable <==> Contains(key, "/assets/") && (Contains(key, "-") || Contains(key, "."))
    ensures cc == HourHtml ==> IsSuffix(".html", key)
  {
    if Contains(key, "/assets/") && (Contains(key, "-") || Contains(key, ".")) then Immutable
    else if IsSuffix(".html", key) || key == "index.html" then HourHtml
    else OneDay
  }

  /** The asset tier wins over the page tier: a versioned name below an `/assets/`
      directory is immutable even when it ends in `.html`. */
  lemma AssetsTierBeatsHtml(dir: string, name: string)
    ensures CacheTier(dir + "/assets/" + name + ".html") == Immutable
  {
    var key := dir + "/assets/" + name + ".html";
    assert key == dir + "/assets/" + (name + ".html");
    ContainsInConcat(dir, "/assets/", name + ".html");
    assert key == (dir + "/assets/" + name) + "." + "html";
    ContainsInConcat(dir + "/assets/" + name, ".", "html");
  }

  /** A key ending in `.html` that is not below an `/assets/` directory gets the one-hour tier. */
  lemma HtmlTier(key: string)
    requires IsSuffix(".html", key) && !Contains(key, "/assets/")
    ensures CacheTier(key) == HourHtml
  {
  }

  lemma TopLevelAssetsLackSlashAssets(name: string)
    requires '/' !in name
    ensures !Contains("assets/" + name, "/assets/")
  {
    var key := "assets/" + name;
    var pat := "/assets/";
    forall j | 0 <= j <= |key|
      ensures !IsPrefix(pat, key[j..])
    {
      if j + 8 <= |key| {
        assert key[j..][7] == name[j];
        DiffersAt(pat, key[j..], 7);
      }
    }
    NotContains(key, pat);
  }

  /** Keys are relative to `dist`, so a file directly in `dist/assets` has a key starting
      with `assets/` and no `/assets/` in it: it never gets the immutable tier. */
  lemma TopLevelAssetsNotImmutable(name: string)
    requires '/' !in name
    ensures CacheTier("assets/" + name) == if IsSuffix(".html", name) then HourHtml else OneDay
  {
    TopLevelAssetsLackSlashAssets(name);
    var key := "assets/" + name;
    if |name| >= 5 {
      assert key[|key| - 5..] == name[|name| - 5..];
    } else {
      assert key[|key| - 5..][4 - |name|] == key[6] == '/';
      DiffersAt(".html", key[|key| - 5..], 4 - |name|);
    }
  }

  lemma BuiltBundleKeyGetsOneDay()
    ensures CacheTier("assets/app-3f2a1.js") == OneDay
  {
    TopLevelAssetsNotImmutable("app-3f2a1.js");
    assert "assets/" + "app-3f2a1.js" == "assets/app-3f2a1.js";
    assert !IsSuffix(".html", "app-3f2a1.js");
  }

  /** The argument vector of `aws s3api put-object` built in `uploadFileWithMetadata`. */
  function PutObjectArgs(file: string, bucket: string, key: string, profile: Option<string>): seq<string> {
    ArgVector(profile, bucket, key, file, ContentType(file), ShouldGzip(file), CacheTier(key))
  }

  /** The order of the pushes, for given policy values. */
  function ArgVector(profile: Option<string>, bucket: string, key: string, file: string,
                     contentType: string, gz: bool, cacheControl: string): seq<string> {
    (if Truthy(profile) then ["--profile", profile.value] else [])
    + ["s3api", "put-object",
       "--bucket", bucket,
       "--key", key,
       "--body", if gz then file + ".gz" else file,
       "--content-type", contentType]
    + (if gz then ["--content-encoding", "gzip"] else [])
    + ["--cache-control", cacheControl]
  }

  /** The request the CLI reads out of a put-object vector. */
  datatype PutObjectRequest = PutObjectRequest(
    profile: Option<string>,
    bucket: string,
    key: string,
    body: string,
    contentType: string,
    contentEncoding: Option<string>,
    cacheControl: string)

  /** `--flag value` pairs; the first occurrence of a flag wins. */
  function FlagValues(args: seq<string>): map<string, string> {
    if |args| < 2 then map[] else FlagValues(args[2..])[args[0] := args[1]]
  }

  lemma FlagValuesPair(a: string, b: string, rest: seq<string>)
    ensures FlagValues([a, b] + rest) == FlagValues(rest)[a := b]
  {
    assert ([a, b] + rest)[2..] == rest;
  }

  /** Reads a put-object vector back: an optional leading `--profile P`, the command
      words, then flag/value pairs. */
  function ReadPutObject(args: seq<string>): Option<PutObjectRequest> {
    if |args| >= 2 && args[0] == "--profile" then ReadCommand(Some(args[1]), args[2..])
    else ReadCommand(None, args)
  }

  function ReadCommand(profile: Option<string>, cmd: seq<string>): Option<PutObjectRequest> {
    if |cmd| >= 2 && cmd[0] == "s3api" && cmd[1] == "put-object" then ReadFlags(profile, FlagValues(cmd[2..]))
    else None
  }

  function ReadFlags(profile: Option<string>, m: map<string, string>): Option<PutObjectRequest> {
    if "--bucket" in m && "--key" in m && "--body" in m && "--content-type" in m && "--cache-control" in m then
      Some(PutObjectRequest(profile, m["--bucket"], m["--key"], m["--body"], m["--content-type"],
        if "--content-encoding" in m then Some(m["--content-encoding"]) else None,
        m["--cache-control"]))
    else None
  }

  lemma FlagsOfPutObject(p: Option<string>, bucket: string, key: string, body: string, ct: string, gz: bool,
                         cc: string)
    ensures var enc := if gz then ["--content-encoding", "gzip"] else [];
      ReadFlags(p, FlagValues(["--bucket", bucket, "--key", key, "--body", body, "--content-type", ct]
                              + enc + ["--cache-control", cc]))
      == Some(PutObjectRequest(p, bucket, key, body, ct, if gz then Some("gzip") else None, cc))
  {
    var front := ["--bucket", bucket, "--key", key, "--body", body, "--content-type", ct];
    if gz {
      GzipFlags(bucket, key, body, ct, cc);
      assert front + ["--content-encoding", "gzip"] + ["--cache-control", cc]
          == ["--bucket", bucket, "--key", key, "--body", body, "--content-type", ct,
              "--content-encoding", "gzip", "--cache-control", cc];
    } else {
      PlainFlags(bucket, key, body, ct, cc);
      assert front + [] + ["--cache-control", cc]
          == ["--bucket", bucket, "--key", key, "--body", body, "--content-type", ct, "--cache-control", cc];
    }
  }

  lemma PlainFlags(bucket: string, key: string, body: string, ct: string, cc: string)
    ensures FlagValues(["--bucket", bucket, "--key", key, "--body", body, "--content-type", ct, "--cache-control", cc])
      == map["--cache-control" := cc, "--content-type" := ct, "--body" := body, "--key" := key, "--bucket" := bucket]
  {
    var t0 := ["--cache-control", cc];
    FlagValuesPair("--cache-control", cc, []);
    assert t0 == ["--cache-control", cc] + [];
    assert FlagValues([]) == map[];
    assert FlagValues(t0) == map["--cache-control" := cc];
    FlagsFront(bucket, key, body, ct, t0);
    assert ["--bucket", bucket, "--key", key, "--body", body, "--content-type", ct, "--cache-control", cc]
        == ["--bucket", bucket, "--key", key, "--body", body, "--content-type", ct] + t0;
  }

  lemma GzipFlags(bucket: string, key: string, body: string, ct: string, cc: string)
    ensures FlagValues(["--bucket", bucket, "--key", key, "--body", body, "--content-type", ct,
                        "--content-encoding", "gzip", "--cache-control", cc])
      == map["--cache-control" := cc, "--content-encoding" := "gzip", "--content-type" := ct, "--body" := body,
             "--key" := key, "--bucket" := bucket]
  {
    var t0 := ["--cache-control", cc];
    FlagValuesPair("--cache-control", cc, []);
    assert t0 == ["--cache-control", cc] + [];
    assert FlagValues([]) == map[];
    assert FlagValues(t0) == map["--cache-control" := cc];
    var t1 := ["--content-encoding", "gzip"] + t0;
    FlagValuesPair("--content-encoding", "gzip", t0);
    FlagsFront(bucket, key, body, ct, t1);
    assert ["--bucket", bucket, "--key", key, "--body", body, "--content-type", ct,
            "--content-encoding", "gzip", "--cache-control", cc]
        == ["--bucket", bucket, "--key", key, "--body", body, "--content-type", ct] + t1;
  }

  lemma FlagsFront(bucket: string, key: string, body: string, ct: string, t1: seq<string>)
    ensures FlagValues(["--bucket", bucket, "--key", key, "--body", body, "--content-type", ct] + t1)
      == FlagValues(t1)["--content-type" := ct]["--body" := body]["--key" := key]["--bucket" := bucket]
  {
    var t2 := ["--content-type", ct] + t1;
    FlagValuesPair("--content-type", ct, t1);
    var t3 := ["--body", body] + t2;
    FlagValuesPair("--body", body, t2);
    var t4 := ["--key", key] + t3;
    FlagValuesPair("--key", key, t3);
    var t5 := ["--bucket", bucket] + t4;
    FlagValuesPair("--bucket", bucket, t4);
    assert ["--bucket", bucket, "--key", key, "--body", body, "--content-type", ct] + t1 == t5;
  }

  lemma ReadCommandOf(p: Option<string>, flags: seq<string>)
    ensures ReadCommand(p, ["s3api", "put-object"] + flags) == ReadFlags(p, FlagValues(flags))
  {
    assert (["s3api", "put-object"] + flags)[2..] == flags;
  }

  lemma ArgVectorShape(profile: Option<string>, bucket: string, key: string, file: string,
                       ct: string, gz: bool, cc: string)
    ensures ArgVector(profile, bucket, key, file, ct, gz, cc)
         == (if Truthy(profile) then ["--profile", profile.value] else [])
            + (["s3api", "put-object"]
               + (["--bucket", bucket, "--key", key, "--body", if gz then file + ".gz" else file, "--content-type", ct]
                  + (if gz then ["--content-encoding", "gzip"] else []) + ["--cache-control", cc]))
  {
  }

  lemma ReadWithProfile(v: string, cmd: seq<string>)
    ensures ReadPutObject(["--profile", v] + cmd) == ReadCommand(Some(v), cmd)
  {
    assert (["--profile", v] + cmd)[2..] == cmd;
  }

  lemma ArgVectorRoundTrip(profile: Option<string>, bucket: string, key: string, file: string,
                           ct: string, gz: bool, cc: string)
    ensures ReadPutObject(ArgVector(profile, bucket, key, file, ct, gz, cc))
         == Some(PutObjectRequest(if Truthy(profile) then profile else None, bucket, key,
              if gz then file + ".gz" else file, ct, if gz then Some("gzip") else None, cc))
  {
    var body := if gz then file + ".gz" else file;
    var enc := if gz then ["--content-encoding", "gzip"] else [];
    var flags := ["--bucket", bucket, "--key", key, "--body", body, "--content-type", ct]
                 + enc + ["--cache-control", cc];
    var p := if Truthy(profile) then profile else None;
    FlagsOfPutObject(p, bucket, key, body, ct, gz, cc);
    ReadCommandOf(p, flags);
    var cmd := ["s3api", "put-object"] + flags;
    ArgVectorShape(profile, bucket, key, file, ct, gz, cc);
    if Truthy(profile) {
      ReadWithProfile(profile.value, cmd);
    } else {
      assert [] + cmd == cmd;
    }
  }

  /** The vector reads back as the intended request: the profile only when truthy, the
      `.gz` body and the `gzip` Content-Encoding (section 8.4.1.3 of RFC 9110) exactly when
      the file is compressed, and the tier of its key. */
  lemma PutObjectRoundTrip(file: string, bucket: string, key: string, profile: Option<string>)
    ensures ReadPutObject(PutObjectArgs(file, bucket, key, profile))
         == Some(PutObjectRequest(
              if Truthy(profile) then profile else None,
              bucket, key,
              if ShouldGzip(file) then file + ".gz" else file,
              ContentType(file),
              if ShouldGzip(file) then Some("gzip") else None,
              CacheTier(key)))
  {
    ArgVectorRoundTrip(profile, bucket, key, file, ContentType(file), ShouldGzip(file), CacheTier(key));
  }
}
