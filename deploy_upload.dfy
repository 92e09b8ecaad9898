/** The upload half of `scripts/deploy.js`: one file's `put-object` call with its
    temporary `.gz` file, the recursive listing of `dist`, the bucket keys, and the
    batch loop that uploads ten files at a time and stops at the first failed batch. */
module DeployUpload {
  import opened Strings
  import opened DeployPolicy

  /** How the gzip stream of one file ends: the `.gz` file is opened before any byte is
      compressed, so a failure can leave a partial `.gz` behind or none at all. */
  datatype GzipRun = Compressed | FailedAfterOpen | FailedBeforeOpen

  datatype Uploaded = Uploaded(contentType: string, gzipped: bool)

  datatype UploadError = GzipFailed | CliFailed

  /** The files on disk after one upload, from those before it. When gzip fails the
      upload path is still the source file, so the clean-up in the error path removes
      the source file itself. */
  function FilesAfterUpload(before: set<string>, file: string, gz: bool, run: GzipRun): set<string> {
    if !gz then before
    else match run
      case Compressed => before - {file + ".gz"}
      case FailedAfterOpen => before + {file + ".gz"} - {file}
      case FailedBeforeOpen => before - {file}
  }

  /** A compressed upload leaves no `.gz` file, whether the CLI call succeeds or not, and
      touches nothing else. */
  lemma CompressedUploadLeavesNoTempFile(before: set<string>, file: string)
    ensures file + ".gz" !in FilesAfterUpload(before, file, true, Compressed)
    ensures forall f :: f != file + ".gz" ==> (f in FilesAfterUpload(before, file, true, Compressed) <==> f in before)
  {
  }

  /** An uncompressed upload changes no file. */
  lemma PlainUploadChangesNothing(before: set<string>, file: string, run: GzipRun)
    ensures FilesAfterUpload(before, file, false, run) == before
  {
  }

  /** When compression fails the error path deletes the source file and keeps any partial
      `.gz` file. */
  lemma FailedGzipDeletesSource(before: set<string>, file: string, run: GzipRun)
    requires run != Compressed
    ensures file !in FilesAfterUpload(before, file, true, run)
    ensures run == FailedAfterOpen ==> file + ".gz" in FilesAfterUpload(before, file, true, run)
  {
    assert file + ".gz" != file by {
      assert |file + ".gz"| != |file|;
    }
  }

  /** The argument vector of `uploadFileWithMetadata`, pushed in the source's order; the
      upload path and encoding are those the gzip step chose. */
  method PushPutObjectArgs(profile: Option<string>, bucketName: string, bucketKey: string, filePath: string,
                           gz: bool, uploadPath: string, contentType: string, contentEncoding: string,
                           cacheControl: string)
    returns (awsArgs: seq<string>)
    requires uploadPath == if gz then filePath + ".gz" else filePath
    requires contentEncoding == if gz then "gzip" else ""
    ensures awsArgs == ArgVector(profile, bucketName, bucketKey, filePath, contentType, gz, cacheControl)
  {
    var head: seq<string> := if Truthy(profile) then ["--profile", profile.value] else [];
    var body := ["s3api", "put-object", "--bucket", bucketName, "--key", bucketKey, "--body", uploadPath,
                 "--content-type", contentType];
    var encoding: seq<string> := if gz then ["--content-encoding", "gzip"] else [];
    awsArgs := [];
    if Truthy(profile) {
      awsArgs := awsArgs + ["--profile", profile.value];
    }
    assert awsArgs == head;
    awsArgs := awsArgs + ["s3api", "put-object"];
    awsArgs := awsArgs + ["--bucket", bucketName, "--key", bucketKey, "--body", uploadPath,
                          "--content-type", contentType];
    assert awsArgs == head + body;
    if contentEncoding != "" {
      awsArgs := awsArgs + ["--content-encoding", contentEncoding];
    }
    assert awsArgs == head + body + encoding;
    awsArgs := awsArgs + ["--cache-control", cacheControl];
  }

  /** What `uploadFileWithMetadata` resolves or rejects with, given how the compression
      of the file ran and whether the CLI succeeded: it rejects with the gzip error when a
      file that must be compressed was not, otherwise with the CLI's error, and it
      resolves with the file's content type and gzip decision. */
  function UploadOutcome(filePath: string, gzipRun: GzipRun, cliOk: bool): (r: Result<Uploaded, UploadError>)
    ensures r.Ok? <==> (!ShouldGzip(filePath) || gzipRun == Compressed) && cliOk
    ensures r.Ok? ==> r.value == Uploaded(ContentType(filePath), ShouldGzip(filePath))
    ensures r == Err(GzipFailed) <==> ShouldGzip(filePath) && gzipRun != Compressed
  {
    if ShouldGzip(filePath) && gzipRun != Compressed then Err(GzipFailed)
    else if cliOk then Ok(Uploaded(ContentType(filePath), ShouldGzip(filePath)))
    else Err(CliFailed)
  }

  /** The local file system as the upload of one file sees it. */
  class LocalFs {
    var files: set<string>

    constructor (initial: set<string>)
      ensures files == initial
    {
      files := initial;
    }

    /** `uploadFileWithMetadata`: compress when the type calls for it, build the argument
        vector, run the CLI (its success is `cliOk`), remove the `.gz` file on both paths,
        and hand a failure back to the caller. */
    method UploadFileWithMetadata(filePath: string, bucketName: string, bucketKey: string,
                                  profile: Option<string>, gzipRun: GzipRun, cliOk: bool)
      returns (r: Result<Uploaded, UploadError>, spawned: Option<seq<string>>)
      modifies this
      ensures spawned.Some? <==> !ShouldGzip(filePath) || gzipRun == Compressed
      ensures spawned.Some? ==> spawned.value == PutObjectArgs(filePath, bucketName, bucketKey, profile)
      ensures r.Ok? <==> spawned.Some? && cliOk
      ensures r.Ok? ==> r.value == Uploaded(ContentType(filePath), ShouldGzip(filePath))
      ensures r.Err? ==> r.error == if spawned.Some? then CliFailed else GzipFailed
      ensures files == FilesAfterUpload(old(files), filePath, ShouldGzip(filePath), gzipRun)
      ensures r == UploadOutcome(filePath, gzipRun, cliOk)
    {
      var contentType := ContentType(filePath);
      var shouldGzip := ShouldGzip(filePath);
      r, spawned := UploadWithPolicy(filePath, bucketName, bucketKey, profile, contentType, shouldGzip,
                                     CacheTier(bucketKey), gzipRun, cliOk);
    }

    /** The body of `uploadFileWithMetadata` once the content type, the gzip decision and
        the cache tier are known. */
    method UploadWithPolicy(filePath: string, bucketName: string, bucketKey: string, profile: Option<string>,
                            contentType: string, shouldGzip: bool, cacheControl: string,
                            gzipRun: GzipRun, cliOk: bool)
      returns (r: Result<Uploaded, UploadError>, spawned: Option<seq<string>>)
      modifies this
      ensures spawned.Some? <==> !shouldGzip || gzipRun == Compressed
      ensures spawned.Some? ==>
        spawned.value == ArgVector(profile, bucketName, bucketKey, filePath, contentType, shouldGzip, cacheControl)
      ensures r.Ok? <==> spawned.Some? && cliOk
      ensures r.Ok? ==> r.value == Uploaded(contentType, shouldGzip)
      ensures r.Err? ==> r.error == if spawned.Some? then CliFailed else GzipFailed
      ensures files == FilesAfterUpload(old(files), filePath, shouldGzip, gzipRun)
    {
      var uploadPath := filePath;
      var contentEncoding := "";
      var failure: Option<UploadError> := None;
      spawned := None;
      if shouldGzip {
        var gzipPath := filePath + ".gz";
        match gzipRun
        case Compressed =>
          files := files + {gzipPath};
          uploadPath := gzipPath;
          contentEncoding := "gzip";
        case FailedAfterOpen =>
          files := files + {gzipPath};
          failure := Some(GzipFailed);
        case FailedBeforeOpen =>
          failure := Some(GzipFailed);
      }
      if failure.None? {
        var awsArgs := PushPutObjectArgs(profile, bucketName, bucketKey, filePath, shouldGzip, uploadPath,
                                         contentType, contentEncoding, cacheControl);
        spawned := Some(awsArgs);
        if cliOk {
          if shouldGzip && uploadPath in files {
            files := files - {uploadPath};
          }
          r := Ok(Uploaded(contentType, shouldGzip));
        } else {
          failure := Some(CliFailed);
        }
      }
      if failure.Some? {
        if shouldGzip && uploadPath in files {
          files := files - {uploadPath};
        }
        r := Err(failure.value);
      }
    }
  }

  /** What `readdirSync` and `statSync` report under a directory. */
  datatype Entry = File(name: string) | Dir(name: string, entries: seq<Entry>)

  /** The full paths of the files below one entry of directory `dir`. */
  function EntryFiles(dir: string, e: Entry): seq<string>
    decreases e
  {
    match e
    case File(n) => [PathJoin(dir, n)]
    case Dir(n, children) => FilesUnder(PathJoin(dir, n), children)
  }

  /** The full paths of the files below the listing `s` of directory `dir`, depth first in
      listing order. */
  function FilesUnder(dir: string, s: seq<Entry>): seq<string>
    decreases s
  {
    if s == [] then [] else FilesUnder(dir, s[..|s| - 1]) + EntryFiles(dir, s[|s| - 1])
  }

  /** `getAllFiles(dirPath, arrayOfFiles)`: appends the files below `dirPath` to the
      accumulator, recursing into each directory where the listing names it. */
  method GetAllFiles(dirPath: string, listing: seq<Entry>, arrayOfFiles: seq<string>) returns (all: seq<string>)
    ensures all == arrayOfFiles + FilesUnder(dirPath, listing)
    decreases listing
  {
    all := arrayOfFiles;
    for i := 0 to |listing|
      invariant all == arrayOfFiles + FilesUnder(dirPath, listing[..i])
    {
      assert listing[..i + 1][..i] == listing[..i];
      var fullPath := PathJoin(dirPath, listing[i].name);
      match listing[i]
      case Dir(_, children) =>
        all := GetAllFiles(fullPath, children, all);
      case File(_) =>
        all := all + [fullPath];
    }
    assert listing[..|listing|] == listing;
  }

  /** The number of files below a listing. */
  function FileCount(s: seq<Entry>): nat
    decreases s
  {
    if s == [] then 0
    else FileCount(s[..|s| - 1]) + (match s[|s| - 1] case File(_) => 1 case Dir(_, c) => FileCount(c))
  }

  lemma {:induction false} FilesUnderCount(dir: string, s: seq<Entry>)
    ensures |FilesUnder(dir, s)| == FileCount(s)
    decreases s
  {
    if s != [] {
      FilesUnderCount(dir, s[..|s| - 1]);
      match s[|s| - 1]
      case File(_) =>
      case Dir(n, c) => FilesUnderCount(PathJoin(dir, n), c);
    }
  }

  /** Bucket keys: paths relative to the listed directory, '/'-separated, without a
      leading '/'. */
  function EntryKeys(prefix: string, e: Entry): seq<string>
    decreases e
  {
    match e
    case File(n) => [prefix + n]
    case Dir(n, children) => KeysUnder(prefix + n + "/", children)
  }

  function KeysUnder(prefix: string, s: seq<Entry>): seq<string>
    decreases s
  {
    if s == [] then [] else KeysUnder(prefix, s[..|s| - 1]) + EntryKeys(prefix, s[|s| - 1])
  }

  /** `pre + k` for every `k`, in order. */
  function Prefixed(pre: string, ks: seq<string>): (r: seq<string>)
    ensures |r| == |ks|
    ensures forall i :: 0 <= i < |ks| ==> r[i] == pre + ks[i]
  {
    if ks == [] then [] else Prefixed(pre, ks[..|ks| - 1]) + [pre + ks[|ks| - 1]]
  }

  lemma PrefixedAppend(pre: string, a: seq<string>, b: seq<string>)
    ensures Prefixed(pre, a + b) == Prefixed(pre, a) + Prefixed(pre, b)
  {
  }

  /** Every listed path is the root, a '/', and the file's key. */
  lemma {:induction false} EntryFilesAreRootedKeys(root: string, prefix: string, dir: string, e: Entry)
    requires dir + "/" == root + "/" + prefix
    ensures EntryFiles(dir, e) == Prefixed(root + "/", EntryKeys(prefix, e))
    decreases e
  {
    match e
    case File(n) =>
      assert PathJoin(dir, n) == (root + "/") + (prefix + n);
    case Dir(n, children) =>
      assert PathJoin(dir, n) + "/" == root + "/" + (prefix + n + "/");
      FilesAreRootedKeys(root, prefix + n + "/", PathJoin(dir, n), children);
  }

  lemma {:induction false} FilesAreRootedKeys(root: string, prefix: string, dir: string, s: seq<Entry>)
    requires dir + "/" == root + "/" + prefix
    ensures FilesUnder(dir, s) == Prefixed(root + "/", KeysUnder(prefix, s))
    decreases s
  {
    if s != [] {
      FilesAreRootedKeys(root, prefix, dir, s[..|s| - 1]);
      EntryFilesAreRootedKeys(root, prefix, dir, s[|s| - 1]);
      PrefixedAppend(root + "/", KeysUnder(prefix, s[..|s| - 1]), EntryKeys(prefix, s[|s| - 1]));
    }
  }

  /** `path.relative(root, file)` for a file below `root`. */
  function RelativeTo(root: string, file: string): (rel: string)
    requires IsPrefix(root + "/", file)
    ensures root + "/" + rel == file
  {
    file[|root| + 1..]
  }

  /** The relative paths of the files listed below `dist` are exactly their keys, so a file
      directly in `dist/assets` has a key that begins with `assets/`, not `/assets/`. */
  lemma RelativePathsAreKeys(dist: string, s: seq<Entry>)
    ensures var files := FilesUnder(dist, s);
      var keys := KeysUnder("", s);
      |files| == |keys|
      && forall i :: 0 <= i < |files| ==> IsPrefix(dist + "/", files[i]) && RelativeTo(dist, files[i]) == keys[i]
  {
    assert dist + "/" == dist + "/" + "";
    FilesAreRootedKeys(dist, "", dist, s);
    var files := FilesUnder(dist, s);
    var keys := KeysUnder("", s);
    forall i | 0 <= i < |files|
      ensures IsPrefix(dist + "/", files[i]) && RelativeTo(dist, files[i]) == keys[i]
    {
      assert files[i] == (dist + "/") + keys[i];
      assert files[i][..|dist + "/"|] == dist + "/";
    }
  }

  lemma TopLevelAssetsKey(n: string)
    ensures KeysUnder("", [Dir("assets", [File(n)])]) == ["assets/" + n]
  {
    var s := [Dir("assets", [File(n)])];
    assert s[..0] == [];
    var c := [File(n)];
    assert c[..0] == [];
    assert KeysUnder("assets/", c) == [("assets/") + n];
    assert "" + "assets" + "/" == "assets/";
  }

  /** The built bundle `dist/assets/app-3f2a1.js` is uploaded under the key
      `assets/app-3f2a1.js`, which gets the one-day tier. */
  lemma BuiltBundleIsNotImmutable(dist: string)
    ensures FilesUnder(dist, [Dir("assets", [File("app-3f2a1.js")])]) == [dist + "/" + "assets/app-3f2a1.js"]
    ensures CacheTier(KeysUnder("", [Dir("assets", [File("app-3f2a1.js")])])[0]) == OneDay
  {
    var s := [Dir("assets", [File("app-3f2a1.js")])];
    TopLevelAssetsKey("app-3f2a1.js");
    assert "assets/" + "app-3f2a1.js" == "assets/app-3f2a1.js";
    RelativePathsAreKeys(dist, s);
    BuiltBundleKeyGetsOneDay();
    FilesAreRootedKeys(dist, "", dist, s);
    assert dist + "/" == dist + "/" + "";
  }

  /** `relativePath.replace(/\\\\/g, '/')`: the pattern matches two consecutive backslashes,
      replaced left to right without overlap. */
  function NormalizeKey(k: string): (r: string)
    ensures |r| <= |k|
    ensures '\\' !in k ==> r == k
  {
    if |k| >= 2 && k[0] == '\\' && k[1] == '\\' then "/" + NormalizeKey(k[2..])
    else if k == [] then []
    else [k[0]] + NormalizeKey(k[1..])
  }

  predicate NoDoubleBackslash(s: string) {
    forall i :: 0 <= i < |s| - 1 ==> !(s[i] == '\\' && s[i + 1] == '\\')
  }

  /** The normalised key starts with a backslash exactly when the key starts with a lone one. */
  lemma {:induction false} NormalizeKeyHead(k: string)
    ensures NormalizeKey(k) != [] && NormalizeKey(k)[0] == '\\'
        <==> |k| >= 1 && k[0] == '\\' && !(|k| >= 2 && k[1] == '\\')
  {
  }

  /** No double backslash survives normalisation. */
  lemma {:induction false} NormalizeKeyLeavesNoDouble(k: string)
    ensures NoDoubleBackslash(NormalizeKey(k))
    decreases |k|
  {
    if |k| >= 2 && k[0] == '\\' && k[1] == '\\' {
      NormalizeKeyLeavesNoDouble(k[2..]);
      var r := NormalizeKey(k);
      assert r == "/" + NormalizeKey(k[2..]);
      assert forall i :: 1 <= i < |r| ==> r[i] == NormalizeKey(k[2..])[i - 1];
    } else if k != [] {
      NormalizeKeyLeavesNoDouble(k[1..]);
      NormalizeKeyHead(k[1..]);
      var r := NormalizeKey(k);
      assert r == [k[0]] + NormalizeKey(k[1..]);
      assert forall i :: 1 <= i < |r| ==> r[i] == NormalizeKey(k[1..])[i - 1];
    }
  }

  /** Normalising twice changes nothing more. */
  lemma {:induction false} NormalizeKeyIdempotent(k: string)
    requires NoDoubleBackslash(k)
    ensures NormalizeKey(k) == k
    decreases |k|
  {
    if k != [] {
      assert NoDoubleBackslash(k[1..]) by {
        forall i | 0 <= i < |k| - 2
          ensures !(k[1..][i] == '\\' && k[1..][i + 1] == '\\')
        {
          assert k[1..][i] == k[i + 1] && k[1..][i + 1] == k[i + 2];
        }
      }
      NormalizeKeyIdempotent(k[1..]);
      assert [k[0]] + k[1..] == k;
    }
  }

  /** A key with one backslash between two names is left as it is: the pattern needs two. */
  lemma SingleBackslashKept(a: string, b: string)
    requires '\\' !in a && '\\' !in b
    ensures NormalizeKey(a + "\\" + b) == a + "\\" + b
  {
    var k := a + "\\" + b;
    forall i | 0 <= i < |k| - 1
      ensures !(k[i] == '\\' && k[i + 1] == '\\')
    {
      if i < |a| {
        assert k[i] == a[i];
      } else if i == |a| {
        assert k[i + 1] == b[0];
      } else {
        assert k[i] == b[i - |a| - 1];
      }
    }
    NormalizeKeyIdempotent(k);
  }

  /** Normalisation passes over a stretch without backslashes unchanged. */
  lemma {:induction false} NormalizeKeyPlainPrefix(a: string, rest: string)
    requires '\\' !in a
    ensures NormalizeKey(a + rest) == a + NormalizeKey(rest)
    decreases |a|
  {
    if a == [] {
      assert a + rest == rest;
    } else {
      var k := a + rest;
      assert k[0] == a[0] && k[1..] == a[1..] + rest;
      NormalizeKeyPlainPrefix(a[1..], rest);
      assert [a[0]] + (a[1..] + NormalizeKey(rest)) == a + NormalizeKey(rest);
    }
  }

  /** A doubled backslash between two names becomes '/'. */
  lemma DoubleBackslashReplaced(a: string, b: string)
    requires '\\' !in a && '\\' !in b
    ensures NormalizeKey(a + "\\\\" + b) == a + "/" + b
  {
    var rest := "\\\\" + b;
    assert a + "\\\\" + b == a + rest;
    NormalizeKeyPlainPrefix(a, rest);
    assert rest[2..] == b;
  }

  /** One element of `uploadTasks`: the file and its bucket key. */
  datatype UploadTask = UploadTask(filePath: string, bucketKey: string)

  datatype UploadRecord = UploadRecord(filePath: string, bucketKey: string, gzipped: bool)

  /** The task list built from the listed files of `dist`. */
  function UploadTasks(dist: string, files: seq<string>): (tasks: seq<UploadTask>)
    requires forall i :: 0 <= i < |files| ==> IsPrefix(dist + "/", files[i])
  {
    seq(|files|, i requires 0 <= i < |files| => UploadTask(files[i], NormalizeKey(RelativeTo(dist, files[i]))))
  }

  /** The outcome of task `j` of `tasks` when each file's compression runs as `gzipRun`
      says and the CLI answers as `cliOk` says. */
  function TaskUploads(tasks: seq<UploadTask>, gzipRun: string -> GzipRun, cliOk: string -> bool)
    : nat -> Result<Uploaded, UploadError>
  {
    (j: nat) => if j < |tasks| then UploadOutcome(tasks[j].filePath, gzipRun(tasks[j].filePath), cliOk(tasks[j].filePath))
         else Err(CliFailed)
  }

  /** The records of the tasks built from `files` are the files with their keys and their
      gzip decisions, and the tasks all resolve exactly when every file's upload does. */
  lemma TaskUploadsRecords(dist: string, files: seq<string>, keys: seq<string>, gzipRun: string -> GzipRun,
                           cliOk: string -> bool, results: seq<UploadRecord>, ok: bool)
    requires |keys| == |files|
    requires forall i :: 0 <= i < |files| ==> IsPrefix(dist + "/", files[i]) && RelativeTo(dist, files[i]) == keys[i]
    requires |results| <= |files|
    requires var tasks := UploadTasks(dist, files);
      forall j :: 0 <= j < |results| ==> Recorded(tasks, TaskUploads(tasks, gzipRun, cliOk), j, results[j])
    requires var tasks := UploadTasks(dist, files);
      ok <==> forall j :: 0 <= j < |tasks| ==> TaskUploads(tasks, gzipRun, cliOk)(j).Ok?
    ensures forall j :: 0 <= j < |results| ==>
      results[j] == UploadRecord(files[j], NormalizeKey(keys[j]), ShouldGzip(files[j]))
    ensures ok <==> forall j :: 0 <= j < |files| ==> UploadOutcome(files[j], gzipRun(files[j]), cliOk(files[j])).Ok?
  {
    var tasks := UploadTasks(dist, files);
    var upload := TaskUploads(tasks, gzipRun, cliOk);
    forall j | 0 <= j < |files|
      ensures upload(j) == UploadOutcome(files[j], gzipRun(files[j]), cliOk(files[j]))
    {
    }
    forall j | 0 <= j < |results|
      ensures results[j] == UploadRecord(files[j], NormalizeKey(keys[j]), ShouldGzip(files[j]))
    {
      assert Recorded(tasks, upload, j, results[j]);
    }
  }

  /** The record a task resolves to once its upload succeeded. */
  function RecordOf(t: UploadTask, u: Uploaded): UploadRecord {
    UploadRecord(t.filePath, t.bucketKey, u.gzipped)
  }

  /** Whether the record of task `j` is `r`: the task's upload succeeded with that result. */
  predicate Recorded(tasks: seq<UploadTask>, upload: nat -> Result<Uploaded, UploadError>, j: nat, r: UploadRecord)
    requires j < |tasks|
  {
    upload(j).Ok? && r == RecordOf(tasks[j], upload(j).value)
  }

  const ConcurrencyLimit: nat := 10

  function Min(a: int, b: int): int {
    if a <= b then a else b
  }

  /** One batch: every task in `tasks[lo..hi]` is started (`upload(j)` is the outcome of
      task `j`); the batch resolves to their records in order when all of them succeed. */
  method RunBatch(tasks: seq<UploadTask>, lo: nat, hi: nat, upload: nat -> Result<Uploaded, UploadError>)
    returns (batchResults: seq<UploadRecord>, allOk: bool)
    requires lo <= hi <= |tasks|
    ensures allOk <==> forall j :: lo <= j < hi ==> upload(j).Ok?
    ensures allOk ==> |batchResults| == hi - lo
    ensures allOk ==> forall j :: 0 <= j < hi - lo ==> Recorded(tasks, upload, lo + j, batchResults[j])
  {
    batchResults := [];
    allOk := true;
    for j := lo to hi
      invariant allOk <==> forall m :: lo <= m < j ==> upload(m).Ok?
      invariant allOk ==> |batchResults| == j - lo
      invariant allOk ==> forall m :: 0 <= m < j - lo ==> Recorded(tasks, upload, lo + m, batchResults[m])
    {
      var outcome := upload(j);
      if outcome.Ok? {
        if allOk {
          batchResults := batchResults + [RecordOf(tasks[j], outcome.value)];
        }
      } else {
        allOk := false;
      }
    }
  }

  /** The batch loop of `uploadFiles`. `results` are the records pushed, `progress` the
      `results.length` printed after each completed batch, `started` how many tasks were
      ever started; `ok` is false when a batch rejected and the error was rethrown. */
  method UploadFiles(tasks: seq<UploadTask>, upload: nat -> Result<Uploaded, UploadError>)
    returns (results: seq<UploadRecord>, progress: seq<nat>, started: nat, ok: bool)
    ensures ok <==> forall j :: 0 <= j < |tasks| ==> upload(j).Ok?
    ensures |results| <= |tasks|
    ensures forall j :: 0 <= j < |results| ==> Recorded(tasks, upload, j, results[j])
    ensures ok ==> |results| == |tasks| && started == |tasks|
    ensures !ok ==> |results| % ConcurrencyLimit == 0 && |results| < |tasks|
    ensures !ok ==> started == Min(|results| + ConcurrencyLimit, |tasks|)
    ensures !ok ==> exists j :: |results| <= j < started && upload(j).Err?
    ensures |progress| == (|results| + ConcurrencyLimit - 1) / ConcurrencyLimit
    ensures forall k :: 0 <= k < |progress| ==> progress[k] == Min(ConcurrencyLimit * (k + 1), |tasks|)
  {
    results := [];
    progress := [];
    started := 0;
    ok := true;
    var i := 0;
    while i < |tasks|
      invariant i == ConcurrencyLimit * |progress|
      invariant |results| == Min(i, |tasks|) && started == |results|
      invariant forall j :: 0 <= j < |results| ==> Recorded(tasks, upload, j, results[j])
      invariant |progress| == (|results| + ConcurrencyLimit - 1) / ConcurrencyLimit
      invariant forall k :: 0 <= k < |progress| ==> progress[k] == Min(ConcurrencyLimit * (k + 1), |tasks|)
    {
      var hi := Min(i + ConcurrencyLimit, |tasks|);
      started := hi;
      var batchResults, allOk := RunBatch(tasks, i, hi, upload);
      if !allOk {
        ok := false;
        var failed :| i <= failed < hi && upload(failed).Err?;
        assert !upload(failed).Ok?;
        return;
      }
      results := results + batchResults;
      progress := progress + [|results|];
      i := i + ConcurrencyLimit;
    }
    forall j | 0 <= j < |tasks|
      ensures upload(j).Ok?
    {
      assert Recorded(tasks, upload, j, results[j]);
    }
  }
}
