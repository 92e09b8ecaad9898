/** The driver of `scripts/deploy.js`: configuration checks, the environment, the
    cache-control pass over the bucket, the CloudFront invalidation and the order of the
    deployment steps. */
module Deploy {
  import opened Strings
  import opened SiteConfig
  import opened AwsCli
  import opened DeployPolicy
  import opened DeployUpload

  const PlaceholderBucket := "your-website-bucket-name"

  datatype ConfigError = MissingDeploy | InvalidBucketName | InvalidRegion

  /** `validateConfig`: a deploy section, a bucket name that is set and is not the
      template's placeholder, and a region, checked in that order. */
  function ValidateConfig(c: Config): (r: Result<DeploySection, ConfigError>)
    ensures r.Ok? <==> (c.deploy.Some? && Truthy(c.deploy.value.bucketName)
                        && c.deploy.value.bucketName.value != PlaceholderBucket && Truthy(c.deploy.value.region))
    ensures r.Ok? ==> r.value == c.deploy.value
    ensures r == Err(MissingDeploy) <==> c.deploy.None?
    ensures r == Err(InvalidRegion) ==> Truthy(c.deploy.value.bucketName) && !Truthy(c.deploy.value.region)
  {
    if c.deploy.None? then Err(MissingDeploy)
    else if !Truthy(c.deploy.value.bucketName) || c.deploy.value.bucketName.value == PlaceholderBucket then
      Err(InvalidBucketName)
    else if !Truthy(c.deploy.value.region) then Err(InvalidRegion)
    else Ok(c.deploy.value)
  }

  /** The shipped configuration passes validation. */
  lemma ShippedConfigIsValid()
    ensures ValidateConfig(Shipped).Ok?
  {
    assert Shipped.deploy.value.bucketName.value == "example.com";
  }

  datatype DistError = DistNotFound | DistEmpty

  /** `checkDistDirectory`: `listing` is what `readdirSync` returns, `None` when the
      directory does not exist. */
  function CheckDistDirectory(listing: Option<seq<string>>): (r: Result<nat, DistError>)
    ensures r.Ok? <==> listing.Some? && |listing.value| > 0
    ensures r.Ok? ==> r.value == |listing.value|
    ensures r == Err(DistNotFound) <==> listing.None?
  {
    if listing.None? then Err(DistNotFound)
    else if |listing.value| == 0 then Err(DistEmpty)
    else Ok(|listing.value|)
  }

  /** The process environment that the AWS CLI inherits. */
  class ProcessEnv {
    var vars: map<string, string>

    constructor (initial: map<string, string>)
      ensures vars == initial
    {
      vars := initial;
    }

    /** `setupAwsEnvironment`: credentials from the config only when both parts are set;
        the default region whenever the region is set. */
    method SetupAwsEnvironment(d: DeploySection)
      modifies this
      ensures var creds := d.aws.Some? && Truthy(d.aws.value.accessKeyId) && Truthy(d.aws.value.secretAccessKey);
        (creds ==> ("AWS_ACCESS_KEY_ID" in vars && vars["AWS_ACCESS_KEY_ID"] == d.aws.value.accessKeyId.value
                    && "AWS_SECRET_ACCESS_KEY" in vars
                    && vars["AWS_SECRET_ACCESS_KEY"] == d.aws.value.secretAccessKey.value))
        && (!creds ==> forall k :: k in {"AWS_ACCESS_KEY_ID", "AWS_SECRET_ACCESS_KEY"} ==>
                (k in vars <==> k in old(vars)) && (k in vars ==> vars[k] == old(vars)[k]))
      ensures Truthy(d.region) ==> "AWS_DEFAULT_REGION" in vars && vars["AWS_DEFAULT_REGION"] == d.region.value
      ensures !Truthy(d.region) ==> ("AWS_DEFAULT_REGION" in vars <==> "AWS_DEFAULT_REGION" in old(vars))
      ensures !Truthy(d.region) && "AWS_DEFAULT_REGION" in vars ==>
        vars["AWS_DEFAULT_REGION"] == old(vars)["AWS_DEFAULT_REGION"]
      ensures forall k :: k !in {"AWS_ACCESS_KEY_ID", "AWS_SECRET_ACCESS_KEY", "AWS_DEFAULT_REGION"} ==>
        (k in vars <==> k in old(vars)) && (k in vars ==> vars[k] == old(vars)[k])
    {
      if d.aws.Some? {
        if Truthy(d.aws.value.accessKeyId) && Truthy(d.aws.value.secretAccessKey) {
          vars := vars["AWS_ACCESS_KEY_ID" := d.aws.value.accessKeyId.value];
          vars := vars["AWS_SECRET_ACCESS_KEY" := d.aws.value.secretAccessKey.value];
        }
      }
      if Truthy(d.region) {
        vars := vars["AWS_DEFAULT_REGION" := d.region.value];
      }
    }
  }

  /** The command that tests the credentials. */
  function CredentialsCommand(profile: Option<string>): (cmd: string)
    ensures IsPrefix("aws ", cmd) && IsSuffix("sts get-caller-identity", cmd)
  {
    BuildAwsCommand("sts get-caller-identity", profile)
  }

  /** `obj[k]` of a string-valued object. */
  function Get(table: map<string, string>, k: string): (v: Option<string>)
    ensures v.Some? <==> k in table
    ensures v.Some? ==> v.value == table[k]
  {
    if k in table then Some(table[k]) else None
  }

  const ImageExtensions := [".jpg", ".jpeg", ".png", ".gif", ".svg", ".webp"]

  /** Which entry of the `cacheControl` table applies to a key, given its lower-cased
      extension `ext`: the `.html` test is on the key as written. */
  function CacheEntry(file: string, ext: string): (k: Option<string>)
    ensures IsSuffix(".html", file) ==> k == Some("text/html")
    ensures k == Some("text/css") <==> !IsSuffix(".html", file) && ext == ".css"
    ensures k == Some("application/javascript") <==> !IsSuffix(".html", file) && ext == ".js"
    ensures k == Some("image/*") <==> !IsSuffix(".html", file) && ext in ImageExtensions
    ensures k.None? <==> !IsSuffix(".html", file) && ext != ".css" && ext != ".js" && ext !in ImageExtensions
  {
    if IsSuffix(".html", file) then Some("text/html")
    else if ext == ".css" then Some("text/css")
    else if ext == ".js" then Some("application/javascript")
    else if ext in ImageExtensions then Some("image/*")
    else None
  }

  /** The directive the copy pass gives a key: the table's entry for the key's kind when it
      is set, otherwise the table's `default`, otherwise one day. */
  function CacheValueFor(table: map<string, string>, file: string, ext: string): (v: string)
    ensures v != ""
    ensures var k := CacheEntry(file, ext);
      k.Some? && Truthy(Get(table, k.value)) ==> v == table[k.value]
    ensures var k := CacheEntry(file, ext);
      k.None? || !Truthy(Get(table, k.value)) ==> v == OrElse(Get(table, "default"), OneDay)
  {
    var fallback := OrElse(Get(table, "default"), OneDay);
    var k := CacheEntry(file, ext);
    if k.Some? then OrElse(Get(table, k.value), fallback) else fallback
  }

  /** `path.extname(file).toLowerCase()` */
  function LowerExt(file: string): string {
    ToLower(Extname(file))
  }

  /** The lower-cased extension of a file name `stem.e`. */
  lemma LowerExtOfName(dir: string, stem: string, e: string)
    requires dir == "" || dir[|dir| - 1] == '/'
    requires stem != "" && '/' !in stem
    requires e != "" && '.' !in e && '/' !in e
    ensures LowerExt(dir + stem + "." + e) == "." + ToLower(e)
  {
    LowerExtOfFile(dir, stem, e);
  }

  lemma UpperHtmlLowerExt(dir: string, stem: string)
    requires dir == "" || dir[|dir| - 1] == '/'
    requires stem != "" && '/' !in stem
    ensures LowerExt(dir + stem + ".HTML") == ".html"
  {
    assert dir + stem + ".HTML" == dir + stem + "." + "HTML";
    LowerExtOfFile(dir, stem, "HTML");
    DotLowerUpperHtml();
  }

  lemma DotLowerUpperHtml()
    ensures "." + ToLower("HTML") == ".html"
  {
    assert ToLower("HTML") == "html";
  }

  lemma UpperHtmlNotPage(dir: string, stem: string)
    ensures !IsSuffix(".html", dir + stem + ".HTML")
  {
    var file := dir + stem + ".HTML";
    assert file[|file| - 5..] == ".HTML";
  }

  /** A key that is not an `.html` page but has the extension `.html` has no entry. */
  lemma HtmlExtensionWithoutEntry(table: map<string, string>, file: string)
    requires !IsSuffix(".html", file)
    ensures CacheValueFor(table, file, ".html") == OrElse(Get(table, "default"), OneDay)
  {
  }

  /** A key ending in upper-case `.HTML` fails the case-sensitive `.html` test, and its
      lower-cased extension `.html` is in none of the other lists: it gets the default. */
  lemma UpperCaseHtmlGetsDefault(table: map<string, string>, dir: string, stem: string)
    requires dir == "" || dir[|dir| - 1] == '/'
    requires stem != "" && '/' !in stem
    ensures var file := dir + stem + ".HTML";
      CacheValueFor(table, file, LowerExt(file)) == OrElse(Get(table, "default"), OneDay)
  {
    UpperHtmlLowerExt(dir, stem);
    UpperHtmlNotPage(dir, stem);
    HtmlExtensionWithoutEntry(table, dir + stem + ".HTML");
  }

  lemma NotHtmlPage(dir: string, stem: string, e: string)
    requires 0 < |e| < 4
    ensures !IsSuffix(".html", dir + stem + "." + e)
  {
    var file := dir + stem + "." + e;
    assert file[|file| - |e| - 1] == '.';
  }

  lemma CssExtOfName(dir: string, stem: string, e: string)
    requires dir == "" || dir[|dir| - 1] == '/'
    requires stem != "" && '/' !in stem
    requires e != "" && '.' !in e && '/' !in e && ToLower(e) == "css"
    ensures LowerExt(dir + stem + "." + e) == ".css"
  {
    LowerExtOfName(dir, stem, e);
    DotCss(ToLower(e));
  }

  lemma DotCss(l: string)
    requires l == "css"
    ensures "." + l == ".css"
  {
  }

  lemma CssEntry(file: string, ext: string)
    requires ext == ".css" && !IsSuffix(".html", file)
    ensures CacheEntry(file, ext) == Some("text/css")
  {
  }

  /** The style-sheet entry applies whatever the case of the extension. */
  lemma CssEntryIgnoresCase(dir: string, stem: string, e: string)
    requires dir == "" || dir[|dir| - 1] == '/'
    requires stem != "" && '/' !in stem
    requires e != "" && '.' !in e && '/' !in e && ToLower(e) == "css"
    ensures var file := dir + stem + "." + e; CacheEntry(file, LowerExt(file)) == Some("text/css")
  {
    var file := dir + stem + "." + e;
    CssExtOfName(dir, stem, e);
    NotHtmlPage(dir, stem, e);
    CssEntry(file, LowerExt(file));
  }

  lemma BundleLowerExt()
    ensures LowerExt("assets/app-3f2a1.js") == ".js"
  {
    assert "assets/app-3f2a1.js" == "assets/" + "app-3f2a1" + "." + "js";
    LowerExtOfName("assets/", "app-3f2a1", "js");
    DotLowerJs();
  }

  lemma DotLowerJs()
    ensures "." + ToLower("js") == ".js"
  {
    assert ToLower("js") == "js";
  }

  lemma BundleNotPage()
    ensures !IsSuffix(".html", "assets/app-3f2a1.js")
  {
    assert "assets/app-3f2a1.js" == "assets/" + "app-3f2a1" + "." + "js";
    NotHtmlPage("assets/", "app-3f2a1", "js");
  }

  lemma ShippedJsValue(file: string, ext: string)
    requires ext == ".js" && !IsSuffix(".html", file)
    ensures CacheValueFor(Shipped.deploy.value.options.value.cacheControl.value, file, ext)
      == "public, max-age=31536000, immutable"
  {
    assert CacheEntry(file, ext) == Some("application/javascript");
  }

  lemma PageLowerExt()
    ensures IsSuffix(".html", "about/index.html")
  {
    var page := "about/index.html";
    assert page[|page| - 5..] == ".html";
  }

  lemma ShippedPageValue(file: string, ext: string)
    requires IsSuffix(".html", file)
    ensures CacheValueFor(Shipped.deploy.value.options.value.cacheControl.value, file, ext)
      == "no-cache, no-store, must-revalidate"
  {
    assert CacheEntry(file, ext) == Some("text/html");
  }

  /** With the shipped table, the built bundle uploaded with the one-day tier is re-copied
      as immutable, and pages get `no-cache`. */
  lemma ShippedTableOverridesUploadTier()
    ensures CacheTier("assets/app-3f2a1.js") == OneDay
    ensures CacheValueFor(Shipped.deploy.value.options.value.cacheControl.value, "assets/app-3f2a1.js",
                          LowerExt("assets/app-3f2a1.js")) == "public, max-age=31536000, immutable"
    ensures CacheValueFor(Shipped.deploy.value.options.value.cacheControl.value, "about/index.html",
                          LowerExt("about/index.html")) == "no-cache, no-store, must-revalidate"
  {
    BuiltBundleKeyGetsOneDay();
    BundleLowerExt();
    BundleNotPage();
    ShippedJsValue("assets/app-3f2a1.js", LowerExt("assets/app-3f2a1.js"));
    PageLowerExt();
    ShippedPageValue("about/index.html", LowerExt("about/index.html"));
  }

  /** The non-empty strings of `s`, in order (`filter(f => f)`). */
  function NonEmpty(s: seq<string>): (r: seq<string>)
    ensures forall i :: 0 <= i < |r| ==> r[i] != ""
    ensures forall x :: x in r <==> x in s && x != ""
  {
    if s == [] then []
    else if s[0] == "" then NonEmpty(s[1..])
    else [s[0]] + NonEmpty(s[1..])
  }

  /** The keys read from the text output of `list-objects-v2`. */
  function ListedKeys(output: string): (keys: seq<string>)
    ensures forall i :: 0 <= i < |keys| ==> keys[i] != "" && '\t' !in keys[i]
  {
    var parts := Split(Trim(output), '\t');
    NonEmptyKeepsCharFree(parts, '\t');
    NonEmpty(parts)
  }

  lemma NonEmptyKeepsCharFree(s: seq<string>, c: char)
    requires forall i :: 0 <= i < |s| ==> c !in s[i]
    ensures forall i :: 0 <= i < |NonEmpty(s)| ==> c !in NonEmpty(s)[i]
  {
    var r := NonEmpty(s);
    forall i | 0 <= i < |r|
      ensures c !in r[i]
    {
      assert r[i] in s;
    }
  }

  lemma NonEmptyOfNonEmpty(s: seq<string>)
    requires forall i :: 0 <= i < |s| ==> s[i] != ""
    ensures NonEmpty(s) == s
  {
  }

  lemma JoinFirstChar(parts: seq<string>, sep: string)
    requires |parts| >= 1 && parts[0] != ""
    ensures Join(parts, sep) != "" && Join(parts, sep)[0] == parts[0][0]
  {
  }

  lemma {:induction false} JoinLastChar(parts: seq<string>, sep: string)
    requires |parts| >= 1 && parts[|parts| - 1] != ""
    ensures var j := Join(parts, sep); j != "" && j[|j| - 1] == parts[|parts| - 1][|parts[|parts| - 1]| - 1]
  {
    if |parts| > 1 {
      JoinLastChar(parts[1..], sep);
      assert parts[1..][|parts| - 2] == parts[|parts| - 1];
    }
  }

  /** Keys that the CLI prints tab-separated are read back as they were, provided no key
      holds a tab and the whole line does not start or end with white space. */
  lemma ListedKeysRoundTrip(keys: seq<string>)
    requires |keys| >= 1
    requires forall i :: 0 <= i < |keys| ==> keys[i] != "" && '\t' !in keys[i]
    requires !IsJsWhitespace(keys[0][0])
    requires !IsJsWhitespace(keys[|keys| - 1][|keys[|keys| - 1]| - 1])
    ensures ListedKeys(Join(keys, "\t")) == keys
  {
    var text := Join(keys, "\t");
    JoinFirstChar(keys, "\t");
    JoinLastChar(keys, "\t");
    assert TrimStart(text) == text;
    assert TrimEnd(text) == text;
    SplitJoin(keys, '\t');
    NonEmptyOfNonEmpty(keys);
  }

  /** The two S3 calls of the cache pass: the listing of the bucket's keys, and the copy of
      one object onto itself with a new `Cache-Control`. */
  datatype CacheCall =
    | ListObjects(bucket: string)
    | CopyObject(bucket: string, key: string, cacheControl: string)

  /** The command line run for a call. */
  function CommandLine(c: CacheCall, profile: Option<string>): string {
    match c
    case ListObjects(bucket) =>
      BuildAwsCommand("s3api list-objects-v2 --bucket " + bucket + " --query \"Contents[].Key\" --output text",
                      profile)
    case CopyObject(bucket, key, value) =>
      BuildAwsCommand("s3api copy-object --bucket " + bucket + " --copy-source " + bucket + "/" + key
        + " --key \"" + key + "\" --cache-control \"" + value + "\" --metadata-directive REPLACE", profile)
  }

  /** The copy of `key` with the directive chosen for it. */
  function CopyCallFor(bucketName: string, table: map<string, string>, key: string): CacheCall {
    CopyObject(bucketName, key, CacheValueFor(table, key, LowerExt(key)))
  }

  /** The copy calls for `keys`, in order. */
  function CopyCalls(bucketName: string, table: map<string, string>, keys: seq<string>): (calls: seq<CacheCall>)
    ensures |calls| == |keys|
  {
    if keys == [] then []
    else CopyCalls(bucketName, table, keys[..|keys| - 1]) + [CopyCallFor(bucketName, table, keys[|keys| - 1])]
  }

  /** Each listed key gets one copy, carrying the directive chosen for it. */
  lemma {:induction false} CopyCallsAt(bucketName: string, table: map<string, string>, keys: seq<string>, i: nat)
    requires i < |keys|
    ensures CopyCalls(bucketName, table, keys)[i]
      == CopyObject(bucketName, keys[i], CacheValueFor(table, keys[i], LowerExt(keys[i])))
  {
    if i < |keys| - 1 {
      CopyCallsAt(bucketName, table, keys[..|keys| - 1], i);
    }
  }

  /** `setCacheControlHeaders`: `listOutput` is the listing's text, `None` when the listing
      failed (a warning). Returns the calls made, listing first; a copy that fails is
      only a warning, so the loop goes on. */
  method SetCacheControlHeaders(bucketName: string, cacheControl: Option<map<string, string>>,
                                listOutput: Option<string>)
    returns (calls: seq<CacheCall>)
    ensures cacheControl.None? ==> calls == []
    ensures cacheControl.Some? && listOutput.None? ==> calls == [ListObjects(bucketName)]
    ensures cacheControl.Some? && listOutput.Some? ==>
      calls == [ListObjects(bucketName)] + CopyCalls(bucketName, cacheControl.value, ListedKeys(listOutput.value))
  {
    calls := [];
    if cacheControl.None? {
      return;
    }
    calls := [ListObjects(bucketName)];
    if listOutput.None? {
      return;
    }
    var copies := CopyEach(bucketName, cacheControl.value, ListedKeys(listOutput.value));
    calls := calls + copies;
  }

  /** The loop of `setCacheControlHeaders` over the listed keys. */
  method CopyEach(bucketName: string, table: map<string, string>, files: seq<string>)
    returns (calls: seq<CacheCall>)
    ensures calls == CopyCalls(bucketName, table, files)
  {
    calls := [];
    for i := 0 to |files|
      invariant calls == CopyCalls(bucketName, table, files[..i])
    {
      assert files[..i + 1][..i] == files[..i] && files[..i + 1][i] == files[i];
      var ext := LowerExt(files[i]);
      var cacheControlValue := CacheValueFor(table, files[i], ext);
      calls := calls + [CopyObject(bucketName, files[i], cacheControlValue)];
    }
    assert files[..|files|] == files;
  }

  /** `[...new Set(s)]`: each element once, at its first position. */
  function Dedup(s: seq<string>): (r: seq<string>)
    ensures forall x :: x in r <==> x in s
    ensures forall i, j :: 0 <= i < j < |r| ==> r[i] != r[j]
    ensures |r| <= |s|
  {
    if s == [] then []
    else
      var d := Dedup(s[..|s| - 1]);
      assert forall x :: x in s <==> x in s[..|s| - 1] || x == s[|s| - 1];
      if s[|s| - 1] in d then d else d + [s[|s| - 1]]
  }

  predicate Distinct(s: seq<string>) {
    forall i, j :: 0 <= i < j < |s| ==> s[i] != s[j]
  }

  /** Deduplicating a list that repeats nothing returns it unchanged. */
  lemma {:induction false} DedupOfDistinct(s: seq<string>)
    requires Distinct(s)
    ensures Dedup(s) == s
  {
    if s != [] {
      var init := s[..|s| - 1];
      DedupOfDistinct(init);
      assert s[|s| - 1] !in init;
      assert init + [s[|s| - 1]] == s;
    }
  }

  /** The deduplicated prefix is kept in front: later elements only add new values after it. */
  lemma {:induction false} DedupKeepsPrefix(a: seq<string>, b: seq<string>)
    ensures |Dedup(a)| <= |Dedup(a + b)|
    ensures Dedup(a + b)[..|Dedup(a)|] == Dedup(a)
  {
    if b != [] {
      var b0 := b[..|b| - 1];
      DedupKeepsPrefix(a, b0);
      assert (a + b)[..|a + b| - 1] == a + b0;
    } else {
      assert a + b == a;
    }
  }

  const BaselinePaths := ["/", "/index.html", "/*/", "/robots.txt", "/sitemap.xml"]

  /** The batch written to the invalidation file. */
  datatype InvalidationBatch = InvalidationBatch(paths: Counted<string>, callerReference: string)

  datatype Invalidation =
    | SkipNoDistribution
    | SkipDisabled
    | Invalidate(batch: InvalidationBatch, command: string)

  /** `invalidateCloudFront`: `now` stands for `Date.now()` and `tmpdir` for `os.tmpdir()`. */
  function InvalidateCloudFront(cf: Option<CloudFrontSection>, profile: Option<string>, tmpdir: string, now: string)
    : (p: Invalidation)
    ensures p == SkipNoDistribution <==> cf.None? || !Truthy(cf.value.distributionId)
    ensures p == SkipDisabled <==>
      cf.Some? && Truthy(cf.value.distributionId) && cf.value.autoInvalidate == Some(false)
    ensures p.Invalidate? ==> p.batch.paths.quantity == |p.batch.paths.items|
    ensures p.Invalidate? ==> p.batch.callerReference == "rswf-deploy-" + now
  {
    if cf.None? || !Truthy(cf.value.distributionId) then SkipNoDistribution
    else if cf.value.autoInvalidate == Some(false) then SkipDisabled
    else
      var customPaths := if cf.value.invalidatePaths.Some? then cf.value.invalidatePaths.value else [];
      var allPaths := Dedup(BaselinePaths + customPaths);
      var configPath := PathJoin(tmpdir, "invalidation-config.json");
      Invalidate(InvalidationBatch(Count(allPaths), "rswf-deploy-" + now),
                 BuildAwsCommand("cloudfront create-invalidation --distribution-id " + cf.value.distributionId.value
                   + " --invalidation-batch file://" + configPath + " --output json", profile))
  }

  /** The invalidated paths are the five baseline paths in order, then each custom path
      not already listed, once. */
  lemma InvalidationPaths(cf: CloudFrontSection, profile: Option<string>, tmpdir: string, now: string)
    requires Truthy(cf.distributionId) && cf.autoInvalidate != Some(false)
    ensures var p := InvalidateCloudFront(Some(cf), profile, tmpdir, now);
      var items := p.batch.paths.items;
      var custom := if cf.invalidatePaths.Some? then cf.invalidatePaths.value else [];
      p.Invalidate?
      && |items| >= 5 && items[..5] == BaselinePaths
      && Distinct(items)
      && (forall x :: x in custom ==> x in items)
      && (forall x :: x in items ==> x in BaselinePaths || x in custom)
  {
    var custom := if cf.invalidatePaths.Some? then cf.invalidatePaths.value else [];
    DedupOfDistinct(BaselinePaths);
    DedupKeepsPrefix(BaselinePaths, custom);
  }

  /** The address printed at the end: the domain behind CloudFront, or the bucket's
      website endpoint. A missing domain prints as `undefined`. */
  function LiveUrl(d: DeploySection): (url: string)
    ensures IsPrefix("https://", url)
  {
    var text := (o: Option<string>) => if o.Some? then o.value else "undefined";
    if d.cloudfront.Some? && Truthy(d.cloudfront.value.distributionId) then "https://" + text(d.domain)
    else "https://" + text(d.bucketName) + ".s3-website-" + text(d.region) + ".amazonaws.com"
  }

  datatype Stage =
    | ValidateStage
    | CheckCliStage
    | CheckDistStage
    | SetupEnvStage
    | TestCredentialsStage
    | UploadStage
    | CacheHeadersStage
    | InvalidateStage

  const AllStages :=
    [ValidateStage, CheckCliStage, CheckDistStage, SetupEnvStage, TestCredentialsStage,
     UploadStage, CacheHeadersStage, InvalidateStage]

  datatype DeployOutcome = Fatal(stage: Stage) | Live(url: string)

  /** What the outside world answers during one deployment. The compression of a file
      and the CLI call that uploads it are answered per file path. */
  datatype World = World(
    cliInstalled: bool,
    distExists: bool,
    credentialsValid: bool,
    gzipRun: string -> GzipRun,
    cliOk: string -> bool,
    listOutput: Option<string>,
    tmpdir: string,
    now: string)

  /** The upload of file `f` resolves. */
  predicate FileUploads(f: string, gzipRun: string -> GzipRun, cliOk: string -> bool) {
    UploadOutcome(f, gzipRun(f), cliOk(f)).Ok?
  }

  /** Every file below `dist` uploads. */
  predicate AllFilesUpload(dist: string, listing: seq<Entry>, gzipRun: string -> GzipRun, cliOk: string -> bool) {
    var files := FilesUnder(dist, listing);
    forall j :: 0 <= j < |files| ==> FileUploads(files[j], gzipRun, cliOk)
  }

  /** The record of the `j`th file below `dist`: its path, its bucket key and whether it
      went up compressed. */
  predicate RecordsFiles(dist: string, listing: seq<Entry>, results: seq<UploadRecord>) {
    var files := FilesUnder(dist, listing);
    var keys := KeysUnder("", listing);
    |results| <= |files| && |keys| == |files|
    && forall j :: 0 <= j < |results| ==>
      results[j] == UploadRecord(files[j], NormalizeKey(keys[j]), ShouldGzip(files[j]))
  }

  /** The files below `dist` uploaded in batches: the listing, the keys and the batch loop
      of `uploadFiles`, each task uploaded by `uploadFileWithMetadata`. */
  method UploadDist(dist: string, listing: seq<Entry>, gzipRun: string -> GzipRun, cliOk: string -> bool)
    returns (results: seq<UploadRecord>, ok: bool)
    ensures ok <==> AllFilesUpload(dist, listing, gzipRun, cliOk)
    ensures RecordsFiles(dist, listing, results)
    ensures ok ==> |results| == FileCount(listing)
  {
    var allFiles := GetAllFiles(dist, listing, []);
    FilesUnderCount(dist, listing);
    RelativePathsAreKeys(dist, listing);
    var tasks := UploadTasks(dist, allFiles);
    var upload := TaskUploads(tasks, gzipRun, cliOk);
    var progress, started;
    results, progress, started, ok := UploadFiles(tasks, upload);
    TaskUploadsRecords(dist, allFiles, KeysUnder("", listing), gzipRun, cliOk, results, ok);
  }

  /** The checks before the upload pass: a valid configuration, the CLI, a non-empty
      `dist` and working credentials. */
  predicate ChecksPass(config: Config, listing: seq<Entry>, world: World) {
    ValidateConfig(config).Ok? && world.cliInstalled && world.distExists && |listing| > 0 && world.credentialsValid
  }

  /** The first five steps of `deploy`: the checks, with the environment set up before
      the credentials are tested. `failed` is the stage of the first check that fails and
      `ran` the number of steps that ran. */
  method RunChecks(env: ProcessEnv, config: Config, listing: seq<Entry>, world: World)
    returns (failed: Option<Stage>, ran: nat)
    modifies env
    ensures failed.None? <==> ChecksPass(config, listing, world)
    ensures failed.None? ==> ran == 5
    ensures failed.Some? ==> 1 <= ran <= 5 && failed.value == AllStages[ran - 1] && failed.value != SetupEnvStage
    ensures failed == Some(ValidateStage) <==> ValidateConfig(config).Err?
    ensures failed == Some(CheckCliStage) <==> ValidateConfig(config).Ok? && !world.cliInstalled
    ensures failed == Some(CheckDistStage) <==>
      ValidateConfig(config).Ok? && world.cliInstalled && (!world.distExists || |listing| == 0)
    ensures failed == Some(TestCredentialsStage) <==>
      ValidateConfig(config).Ok? && world.cliInstalled && world.distExists && |listing| > 0 && !world.credentialsValid
  {
    var validated := ValidateConfig(config);
    if validated.Err? {
      return Some(ValidateStage), 1;
    }
    if !world.cliInstalled {
      return Some(CheckCliStage), 2;
    }
    var names := seq(|listing|, i requires 0 <= i < |listing| => listing[i].name);
    var distChecked := CheckDistDirectory(if world.distExists then Some(names) else None);
    if distChecked.Err? {
      return Some(CheckDistStage), 3;
    }
    env.SetupAwsEnvironment(validated.value);
    if !world.credentialsValid {
      return Some(TestCredentialsStage), 5;
    }
    failed, ran := None, 5;
  }

  /** `deploy`: the steps in order; the first failing check or a failed upload ends the run
      with exit status 1, while the cache pass and the invalidation only warn. `dist` is the
      built directory and `listing` its contents. `ran` is the number of steps of
      `AllStages` that ran. */
  method Deploy(env: ProcessEnv, config: Config, dist: string, listing: seq<Entry>, world: World)
    returns (outcome: DeployOutcome, ran: nat, uploads: seq<UploadRecord>,
             cacheCommands: seq<CacheCall>, invalidation: Option<Invalidation>)
    modifies env
    ensures 1 <= ran <= |AllStages|
    ensures outcome.Live? <==> ran == |AllStages|
    ensures outcome.Fatal? ==> outcome.stage == AllStages[ran - 1]
    ensures outcome.Fatal? ==>
      outcome.stage != SetupEnvStage && outcome.stage != CacheHeadersStage && outcome.stage != InvalidateStage
    ensures outcome == Fatal(ValidateStage) <==> ValidateConfig(config).Err?
    ensures outcome == Fatal(CheckCliStage) <==> ValidateConfig(config).Ok? && !world.cliInstalled
    ensures outcome == Fatal(CheckDistStage) <==>
      ValidateConfig(config).Ok? && world.cliInstalled && (!world.distExists || |listing| == 0)
    ensures outcome == Fatal(TestCredentialsStage) <==>
      ValidateConfig(config).Ok? && world.cliInstalled && world.distExists && |listing| > 0 && !world.credentialsValid
    ensures outcome == Fatal(UploadStage) <==>
      ChecksPass(config, listing, world) && !AllFilesUpload(dist, listing, world.gzipRun, world.cliOk)
    ensures outcome.Live? <==>
      ChecksPass(config, listing, world) && AllFilesUpload(dist, listing, world.gzipRun, world.cliOk)
    ensures outcome.Live? ==> outcome.url == LiveUrl(config.deploy.value)
    ensures outcome.Live? ==> |uploads| == FileCount(listing) && RecordsFiles(dist, listing, uploads)
    ensures outcome.Live? ==> var d := config.deploy.value;
      (cacheCommands == [] <==> d.options.None? || d.options.value.cacheControl.None?)
    ensures outcome.Live? ==>
      invalidation == Some(InvalidateCloudFront(config.deploy.value.cloudfront, Profile(config.deploy.value),
                                                world.tmpdir, world.now))
  {
    uploads, cacheCommands, invalidation := [], [], None;
    var failed;
    failed, ran := RunChecks(env, config, listing, world);
    if failed.Some? {
      return Fatal(failed.value), ran, uploads, cacheCommands, invalidation;
    }
    var d := config.deploy.value;
    var awsProfile := Profile(d);
    var results, ok := UploadDist(dist, listing, world.gzipRun, world.cliOk);
    if !ok {
      return Fatal(UploadStage), 6, uploads, cacheCommands, invalidation;
    }
    uploads := results;
    var cacheControl := if d.options.Some? then d.options.value.cacheControl else None;
    cacheCommands := SetCacheControlHeaders(d.bucketName.value, cacheControl, world.listOutput);
    invalidation := Some(InvalidateCloudFront(d.cloudfront, awsProfile, world.tmpdir, world.now));
    outcome, ran := Live(LiveUrl(d)), 8;
  }
}
