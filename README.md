# static-websites-framework: a Dafny model of the build and deploy scripts

This project models the core of the static-websites-framework template, an
Alpine.js/Handlebars/Vite site template with its own build and AWS hosting scripts:

- `scripts/build-static.js`: the production build. Each page template of `src/pages`
  is rendered with Handlebars on the global data overridden by its page data. The result
  is wrapped in a document with SEO meta tags and the Vite assets, then written to a
  clean URL under `dist` (`dist/index.html` for `home`/`index`, `dist/<name>/index.html`
  otherwise). The build then writes `sitemap.xml` and `robots.txt`.
- `src/js/dev/template-engine.js`: the development renderer. Its template cache and its
  set of registered partials are the fields of a class. It registers every component as
  a partial, routes the location's path to a page template, merges the global and page
  data the same way as the build, and renders into `#app`.
- `scripts/deploy.js`: the upload of `dist` to S3. It checks the configuration, the
  CLI, the directory and the credentials. Each file gets its content type and a gzip
  decision, and each key a Cache-Control tier. Uploads run ten at a time and stop at the
  first failed batch. A cache-control pass then copies every bucket key onto itself, and
  the CloudFront invalidation is built last.
- `scripts/deploy-setup.js`: the one-time infrastructure setup. It creates, in order,
  the Route53 hosted zone, the S3 website bucket, the ACM certificate with its DNS
  validation records and the wait for validation, the CloudFront distribution, the
  alias records and the configuration update. Every failure ends the run with exit
  status 1.

Files:
- `strings.dfy`: the JavaScript string and `path` operations used by the scripts.
- `handlebars.dfy`: the JSON values of the data files, the data merge, the three helpers
  and the library's partial/helper registry.
- `site_config.dfy`: the `deploy` section of `rswf.config.js`.
- `aws_cli.dfy`: the CLI command prefix.
- `deploy_policy.dfy`, `deploy_upload.dfy` and `deploy.dfy`: `deploy.js`.
- `deploy_setup.dfy`: `deploy-setup.js`.
- `build_static.dfy`: `build-static.js`.
- `template_engine.dfy`: the development engine.

Everything outside the scripts becomes an argument: file reads and directory listings
(`None` when missing or unparsable), the AWS CLI (one oracle per kind of call,
`None` for a failed call), `fetch`, Vite's component glob, Handlebars rendering (a
function that may fail), the DOM `#app` element, `Date.now()` and today's date (plain
strings). Loops that poll with `setTimeout` become attempt counters over an oracle
indexed by attempt. `process.exit(1)` becomes a `Fatal`/`Failed` outcome naming the
stage.

Behaviours of the code that the model keeps as written:
- The upload gives the one-year immutable tier only to keys that contain `/assets/`
  (`deploy.js` line 243). The keys are relative to `dist`, so a built bundle such as
  `assets/app-3f2a1.js` starts with `assets/` and gets the one-day tier
  (`DeployPolicy.TopLevelAssetsNotImmutable`, `DeployUpload.BuiltBundleIsNotImmutable`).
  Only the later cache-control pass with the shipped table makes it immutable
  (`Deploy.ShippedTableOverridesUploadTier`).
- The HTML tier of the upload is `public, max-age=3600` (`deploy.js` line 246). The
  `no-cache, no-store, must-revalidate` value of `rswf.config.js` applies only in the
  cache-control pass.
- The key normalisation regex `/\\\\/g` matches two consecutive backslashes, not one.
  A Windows separator is therefore left as it is (`DeployUpload.SingleBackslashKept`).
- `rswf.config.js` sets `options.exclude` and `options.deleteRemoved`; `deploy.js` reads
  neither, so every listed file is uploaded and nothing in the bucket is deleted.
- The gzip decision is the type test alone: every listed extension already has a
  compressible type (`DeployPolicy.ShouldGzip`).
- When compression fails, the upload path is still the source file. The clean-up in the
  error path therefore deletes the source file and keeps the partial `.gz` file
  (`DeployUpload.FailedGzipDeletesSource`).
- The setup script's `finally` clean-up runs only after a complete run, because
  `process.exit` skips it (`DeploySetup.SetupInfrastructure`).
- A failed describe of an issued certificate ends the search for an existing one, even
  when a later certificate would match (`DeploySetup.DescribeFailureAborts`).
- The shipped `rswf.config.js` has `distributionId:` only inside a comment. The
  configuration update therefore takes its replace branch
  (`DeploySetup.UpdateConfigBranch`).
- The development engine's `loadTemplate` does not check `response.ok`, so a 404 page
  is compiled and cached (`TemplateEngine.Engine.LoadTemplate`).
- A location path ending in '/', such as `/about/`, is routed to the empty page name
  and to the template `/src/pages/.html` (`TemplateEngine.PageNameOfTrailingSlash`).
- `registerAllPartials` registers every loaded component whether or not its name is
  already registered. Only `registerPartial` checks the set.

## Model

| member | source | states |
|---|---|---|
| Handlebars.Merge | template/scripts/build-static.js:190 | the merged data has the keys of both objects, and a page value wins over a global one |
| Handlebars.MergeLookup | template/src/js/dev/template-engine.js:175 | a key the page does not set keeps its global value; merging again with the same page changes nothing |
| Handlebars.Or | template/scripts/build-static.js:92-96 | `a \|\| b` is `a` when truthy and `b` otherwise |
| Handlebars.NatText | template/scripts/build-static.js:101 | a number interpolates as a non-empty run of decimal digits, without a leading zero except for 0 itself, whose decimal value is the number |
| Handlebars.Add | template/scripts/build-static.js:73-75 | the `add` helper sums two numbers, concatenates the texts when a string or object is involved, and is NaN exactly when `undefined` meets no string |
| Handlebars.EqIsStrictEquality | template/scripts/build-static.js:78-80 | `eq` is symmetric and reflexive on primitives, never holds between two objects, and equal values print alike |
| Handlebars.ContainsHelper | template/scripts/build-static.js:83-85 | `contains` returns a falsy `str` unchanged; on a non-empty string it is true exactly when the string contains the text of `substring` |
| Handlebars.Registry.RegisterPartial | template/scripts/build-static.js:64 | registering a partial binds its name to its text, replacing an earlier one, and leaves the helpers alone |
| Handlebars.Registry.RegisterHelpers | template/scripts/build-static.js:71-88 | the helpers become the old set plus `add`, `eq` and `contains`; the partials are unchanged |
| Strings.IndexOf | template/src/js/dev/template-engine.js:104 | `indexOf` finds an occurrence with none before it, or reports that there is none at any position |
| Strings.ReplaceFirst | template/src/js/dev/template-engine.js:104 | `replace` with a string pattern leaves a text without the pattern unchanged; otherwise it replaces the first occurrence of the pattern, and nothing else, by the replacement, so the length changes by the replacement's length minus the pattern's |
| Strings.FirstOccurrenceAtEnd | template/src/js/dev/template-engine.js:104 | `.html` appended to a name without `.html` is first found right after the name |
| Strings.JoinSplit | template/scripts/deploy.js:372 | splitting on a character and joining with it gives back the text |
| Strings.SplitJoin | template/scripts/deploy.js:372 | joining parts free of the separator and splitting again gives back the parts |
| Strings.Trim | template/scripts/build-static.js:125 | the trimmed text is a slice of the text with no white space at either end |
| Strings.TrimOfFramed | template/scripts/build-static.js:98-125 | trimming removes exactly a white-space frame around a text whose ends are not white space |
| Strings.ToLowerIdempotent | template/scripts/deploy.js:143 | lower-casing twice is lower-casing once |
| Strings.ExtnameOfFile | template/scripts/deploy.js:143 | the extension of `dir/stem.e` is `.e` |
| Strings.ExtnameOfDotFile | template/scripts/deploy.js:143 | a dot-file such as `.html` has no extension |
| Strings.ExtnameOfPlainName | template/scripts/deploy.js:143 | a name without a dot has no extension |
| Strings.BasenameWithout | template/scripts/build-static.js:305 | `path.basename(f, '.html')` is a prefix of the name: the name less its `.html` suffix when it has one, the whole name otherwise |
| AwsCli.BuildAwsCommand | template/scripts/deploy.js:59-64 | the command starts with `aws `, ends with the base command, and is longer by the profile flag only for a truthy profile |
| AwsCli.BuildAwsCommandWords | template/scripts/deploy-setup.js:67-72 | read back as words, the command is `aws`, then `--profile P` for a truthy profile, then the base command's words |
| AwsCli.Count | template/scripts/deploy.js:438-441 | a `{ Quantity, Items }` pair's quantity is its number of items |
| SiteConfig.Profile | template/scripts/deploy.js:477 | `config.deploy.aws?.profile` is absent without an `aws` section |
| Deploy.ValidateConfig | template/scripts/deploy.js:37-56 | the configuration passes exactly when there is a deploy section, a set bucket name that is not the placeholder, and a region; the missing section is its own error |
| Deploy.ShippedConfigIsValid | template/rswf.config.js:1-76 | the shipped configuration passes validation |
| Deploy.CheckDistDirectory | template/scripts/deploy.js:79-96 | the check passes exactly when `dist` exists and is not empty; a missing directory is its own error |
| Deploy.ProcessEnv.SetupAwsEnvironment | template/scripts/deploy.js:99-113 | credentials are exported only when both parts are set, the region whenever it is set, and no other variable changes |
| Deploy.CredentialsCommand | template/scripts/deploy.js:116-119 | the credential test is an `aws ... sts get-caller-identity` command |
| Deploy.CacheEntry | template/scripts/deploy.js:379-387 | a key ending in `.html` uses the page entry; otherwise the lower-cased extension picks the css, js or image entry, or none |
| Deploy.CacheValueFor | template/scripts/deploy.js:376-387 | a key gets its kind's directive when the table sets it, otherwise the table's default, otherwise one day |
| Deploy.UpperCaseHtmlGetsDefault | template/scripts/deploy.js:379-387 | a key ending in upper-case `.HTML` fails the case-sensitive page test and gets the default directive |
| Deploy.CssEntryIgnoresCase | template/scripts/deploy.js:375-382 | the stylesheet entry applies whatever the case of the extension |
| Deploy.ShippedTableOverridesUploadTier | template/scripts/deploy.js:376-387 | with the shipped table, the bundle uploaded with the one-day tier is re-copied as immutable and pages get `no-cache` |
| Deploy.NonEmpty | template/scripts/deploy.js:372 | `filter(f => f)` keeps exactly the non-empty strings |
| Deploy.ListedKeys | template/scripts/deploy.js:372 | the keys read from the listing are non-empty and hold no tab |
| Deploy.ListedKeysRoundTrip | template/scripts/deploy.js:372 | keys printed tab-separated are read back as they were when no key holds a tab and the line has no outer white space |
| Deploy.CopyCalls | template/scripts/deploy.js:374-397 | there is one copy call per listed key |
| Deploy.CopyCallsAt | template/scripts/deploy.js:390 | the copy of each key carries the directive chosen for that key |
| Deploy.SetCacheControlHeaders | template/scripts/deploy.js:358-403 | no table means no call; a failed listing means the listing call alone; otherwise the listing, then one copy per listed key in order |
| Deploy.CopyEach | template/scripts/deploy.js:374-397 | the loop makes exactly the copy calls of the listed keys, in order |
| Deploy.Dedup | template/scripts/deploy.js:435 | `[...new Set(s)]` holds the same values as `s`, each once, and is no longer |
| Deploy.DedupOfDistinct | template/scripts/deploy.js:435 | a list without repeats is returned unchanged |
| Deploy.DedupKeepsPrefix | template/scripts/deploy.js:435 | the deduplicated prefix stays in front when more values follow |
| Deploy.InvalidateCloudFront | template/scripts/deploy.js:406-467 | no distribution id skips, `autoInvalidate === false` skips, otherwise a batch whose quantity is its item count and whose caller reference is `rswf-deploy-` and the time |
| Deploy.InvalidationPaths | template/scripts/deploy.js:425-435 | the paths are the five baseline paths in order, then each custom path once, and nothing else |
| Deploy.LiveUrl | template/scripts/deploy.js:502-508 | the address printed is an `https://` URL |
| Deploy.UploadDist | template/scripts/deploy.js:304-354 | the upload succeeds exactly when every file below `dist` uploads (its compression, when its type needs it, and its CLI call succeed); each record is the file, its normalised key and its gzip flag; a success records every file |
| Deploy.RunChecks | template/scripts/deploy.js:470-483 | the checks pass exactly when the configuration is valid, the CLI is installed, `dist` exists and is non-empty, and the credentials work; each check's stage is fatal exactly when it fails after the earlier ones pass; the environment setup is never fatal |
| Deploy.Deploy | template/scripts/deploy.js:470-514 | the steps run in order; each check's stage is fatal exactly when it fails after the earlier checks pass; the upload stage is fatal exactly when the checks pass and some file does not upload; the environment, cache-control and invalidation stages are never fatal; the run goes live exactly when all checks pass and every file uploads, and then records every file, makes cache calls exactly when a table is set, builds the invalidation and prints the live URL |
| DeployPolicy.MimeType | template/scripts/deploy.js:145-171 | a listed extension gets its table type, any other one `application/octet-stream`, never an empty type |
| DeployPolicy.ContentType | template/scripts/deploy.js:142-172 | `getContentType` gives a table type or `application/octet-stream`, never an empty one, and the fallback when there is no extension |
| DeployPolicy.ContentTypeOfFile | template/scripts/deploy.js:142-172 | the type of `stem.e` is the table's entry for `.e` lower-cased, or `application/octet-stream` when the table has none |
| DeployPolicy.ContentTypeIgnoresCase | template/scripts/deploy.js:143 | upper-case extensions are looked up like lower-case ones |
| DeployPolicy.ContentTypeWithoutExtension | template/scripts/deploy.js:171 | a name without a dot is `application/octet-stream` |
| DeployPolicy.ContentTypeOfDotFile | template/scripts/deploy.js:171 | a dot-file is `application/octet-stream` |
| DeployPolicy.GzipExtensionsHaveGzipTypes | template/scripts/deploy.js:180-183 | every listed gzip extension already has a compressible type |
| DeployPolicy.ShouldGzip | template/scripts/deploy.js:175-184 | a file is compressed exactly when its type starts with a compressible prefix |
| DeployPolicy.OctetStreamNotGzipped | template/scripts/deploy.js:175-184 | binary fallbacks are sent uncompressed |
| DeployPolicy.PngNotGzipped | template/scripts/deploy.js:175-184 | a PNG image is `image/png` and is sent uncompressed |
| DeployPolicy.CacheTier | template/scripts/deploy.js:242-249 | a key gets one of three tiers; immutable exactly when it contains `/assets/` and a hyphen or dot; the hour tier only for `.html` keys |
| DeployPolicy.AssetsTierBeatsHtml | template/scripts/deploy.js:243-246 | a versioned name below an `/assets/` directory is immutable even when it ends in `.html` |
| DeployPolicy.HtmlTier | template/scripts/deploy.js:245-246 | an `.html` key outside `/assets/` gets the one-hour tier |
| DeployPolicy.TopLevelAssetsNotImmutable | template/scripts/deploy.js:243-249 | a key directly in `assets/` is never immutable |
| DeployPolicy.BuiltBundleKeyGetsOneDay | template/scripts/deploy.js:243-249 | the bundle key `assets/app-3f2a1.js` gets the one-day tier |
| DeployPolicy.ArgVectorRoundTrip | template/scripts/deploy.js:218-250 | the argument vector reads back as the request it was built from |
| DeployPolicy.PutObjectRoundTrip | template/scripts/deploy.js:201-250 | the put-object request carries the profile only when truthy, the `.gz` body and `gzip` encoding exactly when compressed, the content type and the key's tier |
| DeployUpload.CompressedUploadLeavesNoTempFile | template/scripts/deploy.js:268-282 | a compressed upload removes its `.gz` file on both paths and touches nothing else |
| DeployUpload.PlainUploadChangesNothing | template/scripts/deploy.js:201-285 | an uncompressed upload changes no local file |
| DeployUpload.FailedGzipDeletesSource | template/scripts/deploy.js:274-282 | when compression fails, the clean-up deletes the source file and keeps any partial `.gz` file |
| DeployUpload.PushPutObjectArgs | template/scripts/deploy.js:218-250 | the pushes build the put-object vector in the source's order |
| DeployUpload.LocalFs.UploadFileWithMetadata | template/scripts/deploy.js:201-285 | the CLI runs exactly when compression is not needed or succeeded, with the put-object vector; success needs the CLI; the result's type and gzip flag; the files left on disk |
| DeployUpload.UploadOutcome | template/scripts/deploy.js:201-285 | one upload succeeds exactly when compression, if the type needs it, succeeds and the CLI call succeeds; a failed compression is the gzip error; a success carries the type and the gzip flag |
| DeployUpload.TaskUploadsRecords | template/scripts/deploy.js:320-354 | the batch loop's records are, file by file, the path, the normalised key and the gzip flag, and its success is the success of every per-file upload |
| DeployUpload.LocalFs.UploadWithPolicy | template/scripts/deploy.js:205-284 | the same for a given type, gzip decision and tier |
| DeployUpload.GetAllFiles | template/scripts/deploy.js:288-301 | the accumulator is extended with every file below the directory, depth first in listing order |
| DeployUpload.FilesUnderCount | template/scripts/deploy.js:288-301 | the listing holds one path per file |
| DeployUpload.RelativePathsAreKeys | template/scripts/deploy.js:317-319 | every listed file lies below `dist`, and its relative path is its key |
| DeployUpload.BuiltBundleIsNotImmutable | template/scripts/deploy.js:317-319 | the built bundle `dist/assets/app-3f2a1.js` is uploaded as `assets/app-3f2a1.js` with the one-day tier |
| DeployUpload.NormalizeKey | template/scripts/deploy.js:319 | normalising never lengthens a key and leaves a key without backslashes alone |
| DeployUpload.NormalizeKeyLeavesNoDouble | template/scripts/deploy.js:319 | no double backslash survives |
| DeployUpload.NormalizeKeyIdempotent | template/scripts/deploy.js:319 | a key without a double backslash is unchanged, so normalising twice is normalising once |
| DeployUpload.SingleBackslashKept | template/scripts/deploy.js:319 | a single backslash between two names is kept |
| DeployUpload.DoubleBackslashReplaced | template/scripts/deploy.js:319 | a doubled backslash between two names becomes '/' |
| DeployUpload.RunBatch | template/scripts/deploy.js:337-342 | a batch resolves exactly when all its uploads succeed, to their records in order |
| DeployUpload.UploadFiles | template/scripts/deploy.js:332-350 | all files are recorded exactly when all succeed; a failure stops after a whole number of batches and names a failed upload of the last batch started; the progress printed after each batch |
| DeploySetup.GetRootDomain | template/scripts/deploy-setup.js:52-58 | the root is the last two labels, or the name itself when it has fewer |
| DeploySetup.GetRootDomainIdempotent | template/scripts/deploy-setup.js:52-58 | the root of a root is itself |
| DeploySetup.DomainSet | template/scripts/deploy-setup.js:282 | a subdomain is served alone, a root domain with its `www.` variant |
| DeploySetup.RootIsSuffix | template/scripts/deploy-setup.js:52-58 | the root domain is a suffix of the domain |
| DeploySetup.DomainSetInRootZone | template/scripts/deploy-setup.js:713-745 | every name served ends with the root domain, so its one zone holds all records |
| DeploySetup.ValidateSetupConfig | template/scripts/deploy-setup.js:33-49 | the setup configuration passes exactly when it has a truthy domain, which it returns |
| DeploySetup.ZoneIdOfPrefixed | template/scripts/deploy-setup.js:113 | the zone id is the raw id without its `/hostedzone/` prefix |
| DeploySetup.FindHostedZone | template/scripts/deploy-setup.js:106-123 | a zone is found exactly when the listing names one, and it is the first |
| DeploySetup.SetupHostedZone | template/scripts/deploy-setup.js:153-165 | the zone of the root domain is reused when found and created otherwise; setup fails only when both fail |
| DeploySetup.BucketCalls | template/scripts/deploy-setup.js:180-239 | five calls on the bucket; the location constraint only outside `us-east-1` |
| DeploySetup.CreateS3Bucket | template/scripts/deploy-setup.js:180-239 | the calls are made in order up to the first failure, and the bucket is set up exactly when all five succeed |
| DeploySetup.FindExistingCertificate | template/scripts/deploy-setup.js:242-274 | the loop returns the certificate the first-covering search settles on |
| DeploySetup.FirstCoveringSound | template/scripts/deploy-setup.js:242-274 | a found certificate is issued and covers the names, and every earlier issued one was described and does not |
| DeploySetup.FirstCoveringComplete | template/scripts/deploy-setup.js:242-274 | an issued covering certificate is found, it or an earlier one, when no describe before it fails |
| DeploySetup.DescribeFailureAborts | template/scripts/deploy-setup.js:242-274 | a failed describe of an issued certificate ends the search with nothing |
| DeploySetup.CertRequestFor | template/scripts/deploy-setup.js:282-290 | the request names the served domains, first as domain name, with DNS validation in `us-east-1` |
| DeploySetup.RequestedCertificateCovers | template/scripts/deploy-setup.js:282-290 | a certificate issued for the request covers the names of a later run |
| DeploySetup.PollValidationRecords | template/scripts/deploy-setup.js:301-346 | the records of the first ready reply within 30 attempts, or nothing after 30 |
| DeploySetup.FirstReadyFrom | template/scripts/deploy-setup.js:301-346 | the first of the 30 describes from attempt `k` on whose every option has its record, with none ready before it, or nothing when none of them is ready |
| DeploySetup.RequestSslCertificate | template/scripts/deploy-setup.js:277-359 | a failed request is fatal; otherwise the new ARN with the first ready records, fatal exactly when no reply of the 30 is ready |
| DeploySetup.UpsertFor | template/scripts/deploy-setup.js:362-435 | each validation record becomes an UPSERT with a 300-second TTL in the zone |
| DeploySetup.CreateValidationRecords | template/scripts/deploy-setup.js:362-435 | an empty list is fatal; records are upserted in order, and the run fails exactly when one is not settled, at that one |
| DeploySetup.WaitForCertificateValidation | template/scripts/deploy-setup.js:438-473 | the loop ends as `WaitFrom` from attempt 0 says: at the first trimmed `ISSUED` or `FAILED` status within 60 attempts, or by timing out |
| DeploySetup.WaitFrom | template/scripts/deploy-setup.js:438-473 | the wait from attempt `k` ends issued or failed at the first decisive status before attempt 60, with none decisive before it, or times out when none of them is |
| DeploySetup.DistributionConfigFor | template/scripts/deploy-setup.js:476-583 | aliases are the served names; one origin at the bucket's website endpoint; every behaviour targets it, redirects to HTTPS and has ordered TTLs; the certificate; counts match items |
| DeploySetup.DistributionCaching | template/scripts/deploy-setup.js:489-560 | pages are cached at most a day, assets for a year, and a 404 is answered with the entry point and status 200 |
| DeploySetup.OriginIsDeployEndpoint | template/scripts/deploy-setup.js:480 | the origin is the bucket endpoint that `deploy` reports while no distribution id is configured |
| DeploySetup.CreateCloudFrontDistribution | template/scripts/deploy-setup.js:476-583 | the distribution is created from its configuration; a failed creation is fatal |
| DeploySetup.CreateDnsRecords | template/scripts/deploy-setup.js:586-628 | one alias CREATE per served name in order; an `already exists` error is skipped and any other is fatal at that name |
| DeploySetup.AliasesMatchDistribution | template/scripts/deploy-setup.js:586-628 | the alias records name exactly the distribution's aliases |
| DeploySetup.UpdateConfigBranch | template/scripts/deploy-setup.js:631-665 | manual instructions exactly when reading or writing fails; otherwise replace, add a section or insert, by what the file contains |
| DeploySetup.TempDir.Write | template/scripts/deploy-setup.js:476-583 | writing a temporary file adds it |
| DeploySetup.TempDir.Cleanup | template/scripts/deploy-setup.js:668-687 | the clean-up removes every temporary file of the script and nothing else |
| DeploySetup.SetupZoneAndBucket | template/scripts/deploy-setup.js:711-719 | steps 1 and 2: the zone; then the bucket calls only when the bucket does not exist; the steps succeed exactly when the zone is found or created and the bucket exists or all five calls succeed |
| DeploySetup.SetupCertificate | template/scripts/deploy-setup.js:721-737 | step 3: an existing certificate is used as found; otherwise the request, its records and the wait; it fails exactly when `CertificateFailure` names a stage, at that stage, and otherwise settles on `CertificateArnOf` |
| DeploySetup.FinishSetup | template/scripts/deploy-setup.js:739-772 | steps 4 to 6: the distribution stage fails exactly when its creation fails; the alias stage fails exactly when the creation succeeds and some alias CREATE is refused; otherwise one alias per served name, the configuration update and the clean-up |
| DeploySetup.CertifyAndServe | template/scripts/deploy-setup.js:721-772 | steps 3 to 6 fail exactly when `ServeFailure` names a stage, at that stage; a complete run uses `CertificateArnOf` and reports the distribution created |
| DeploySetup.SetupResources | template/scripts/deploy-setup.js:711-772 | the steps after the checks fail exactly when `ResourcesFailure` names a stage, at that stage, with the report of each step that ran |
| DeploySetup.SetupInfrastructure | template/scripts/deploy-setup.js:690-774 | a run fails exactly when `SetupFailure` names a stage, at that stage: the configuration load, its check and the prerequisites each exactly when they fail after the earlier ones pass; each step's report; temporary files removed only after a complete run |
| DeploySetup.CertificateFailure | template/scripts/deploy-setup.js:721-737 | step 3 fails at the request exactly when no certificate covers the domain and the request or its 30 polls fail; at the records exactly when it was requested and some record is not settled or there is none; at the wait exactly when all that holds and the wait does not end issued; never when a certificate exists |
| DeploySetup.FinishFailure | template/scripts/deploy-setup.js:739-745 | steps 4 and 5 fail only at the distribution or the alias records: at the distribution exactly when its creation fails, at the alias records exactly when it succeeds and some alias CREATE is refused |
| DeploySetup.ServeFailure | template/scripts/deploy-setup.js:721-745 | a step-3 failure is the failure of steps 3 to 6 |
| DeploySetup.ResourcesFailure | template/scripts/deploy-setup.js:711-745 | the zone stage fails exactly when the zone is neither found nor created; the bucket stage exactly when the zone is there and the bucket neither exists nor is fully set up; no configuration stage is ever named |
| DeploySetup.SetupFailure | template/scripts/deploy-setup.js:690-700 | the configuration load, its check and the prerequisites each fail exactly when they do after the earlier ones pass |
| DeploySetup.EverythingSucceedsCompletes | template/scripts/deploy-setup.js:690-774 | a world in which every call succeeds at its first attempt lets the run complete |
| DeploySetup.RequestedRecords | template/scripts/deploy-setup.js:318-335 | the records of the first ready describe each have their name, type and value |
| BuildStatic.ReadJsonFile | template/scripts/build-static.js:29-37 | the parsed object, or `{}` when the file cannot be read or parsed |
| BuildStatic.ReadTemplateFile | template/scripts/build-static.js:39-46 | the text, or `''` when the file cannot be read |
| BuildStatic.HtmlFiles | template/scripts/build-static.js:300 | exactly the `.html` entries of the listing, in listing order (see `HtmlFilesConcat`) |
| BuildStatic.HtmlFilesConcat | template/scripts/build-static.js:300 | the filter distributes over concatenation, so the pages keep the listing order |
| BuildStatic.HtmlFilesOne | template/scripts/build-static.js:300 | a single entry is kept exactly when it ends in `.html` |
| BuildStatic.PartialsOfNames | template/scripts/build-static.js:57-66 | every listed component has a partial under its name, and every partial comes from a listed component |
| BuildStatic.PartialsOfLastWins | template/scripts/build-static.js:59-66 | the partial of the last file with a name is that file's text |
| BuildStatic.RegisterPartials | template/scripts/build-static.js:49-67 | a missing directory registers nothing; otherwise every `.html` component is registered; helpers unchanged |
| BuildStatic.MetaTitle | template/scripts/build-static.js:92-93 | the title ends with the site name, and starts with the page title and ` \| ` when the page has one; its length is exactly the parts' lengths plus 3 for the separator |
| BuildStatic.MetaDescription | template/scripts/build-static.js:94 | the description falls back from the page to the global data to the fixed text |
| BuildStatic.MetaImage | template/scripts/build-static.js:96 | the image is truthy exactly when the page image or the default image is |
| BuildStatic.Shown | template/scripts/build-static.js:109 | a conditional tag is written exactly when its value is truthy, with the value's text |
| BuildStatic.HeadTagsProperties | template/scripts/build-static.js:98-125 | every `property` tag is present, the image tags exactly when there is an image |
| BuildStatic.HeadTagsNames | template/scripts/build-static.js:98-125 | every `name` tag is present, the keywords tag exactly when there are keywords |
| BuildStatic.ConditionalMetaTags | template/scripts/build-static.js:109-121 | the image tags appear exactly when the image is truthy, the keywords tag exactly when the page has keywords, every other tag always |
| BuildStatic.MetaTagsAgree | template/scripts/build-static.js:101-124 | the document, Open Graph and Twitter titles agree, and so do the descriptions and the URLs with the canonical link |
| BuildStatic.GenerateMetaTags | template/scripts/build-static.js:98-125 | the trimmed fragment is exactly the tag lines joined at the template's indentation |
| BuildStatic.MetaLinesFramed | template/scripts/build-static.js:99-124 | the fragment starts and ends with a tag, not with white space |
| BuildStatic.MetaTagsEnds | template/scripts/build-static.js:99-124 | the head has 26 lines, from the charset tag to the canonical link |
| BuildStatic.AssetTag | template/scripts/build-static.js:134-144 | the stylesheet link (`href`) and the module script (`src`) are each written exactly when their path is truthy, and name that path |
| BuildStatic.BaseTemplateHolds | template/scripts/build-static.js:129-147 | the document holds the meta tags, the content in the `app` element, the stylesheet when set and the script when set |
| BuildStatic.ManifestEntryOf | template/scripts/build-static.js:156 | the entry is `src/js/main.js`, else `main.js`, else empty |
| BuildStatic.EntryAssets | template/scripts/build-static.js:158-161 | `/file` exactly when `file` is truthy, `/css[0]` exactly when the first stylesheet is |
| BuildStatic.FindFirst | template/scripts/build-static.js:171-172 | `find` gives the first file with the prefix and suffix, or there is none |
| BuildStatic.GetAssetPaths | template/scripts/build-static.js:150-181 | a readable manifest decides; otherwise the first `main-` files of `dist/assets`; otherwise no assets |
| BuildStatic.PageUrl | template/scripts/build-static.js:218 | a page URL starts and ends with '/' |
| BuildStatic.OutputPathServesUrl | template/scripts/build-static.js:202-210 | the file written is the page URL's directory under `dist` followed by `index.html` |
| BuildStatic.PageUrlDistinct | template/scripts/build-static.js:218 | only `home` and `index` have the URL `/`, and other pages keep distinct URLs |
| BuildStatic.BuildPageWrites | template/scripts/build-static.js:184-226 | a page is built exactly when its template renders on the merged data, recorded under its URL with its own title and description, written where the URL is served, holding the content and the meta tags |
| BuildStatic.CollectAppend | template/scripts/build-static.js:304-320 | results keep the order of their files |
| BuildStatic.CollectSound | template/scripts/build-static.js:304-320 | every result comes from a listed file, and there are no more results than files |
| BuildStatic.CollectComplete | template/scripts/build-static.js:316-319 | the result of every file that builds is collected |
| BuildStatic.BuildPages | template/scripts/build-static.js:304-320 | the loop builds the pages of the listed files in order, skipping failures |
| BuildStatic.BuildAllSound | template/scripts/build-static.js:300-320 | every built page comes from a listed file, lives at its clean URL and is written where it is served; every file that builds is among them |
| BuildStatic.SitemapUrls | template/scripts/build-static.js:232-238 | one entry per page in order, at the base URL plus the page URL, dated today, weekly, priority 1.0 exactly for `/` and 0.8 otherwise |
| BuildStatic.GenerateRobotsTxt | template/scripts/build-static.js:251-262 | robots.txt allows everything and points at the sitemap under the base URL |
| BuildStatic.PagesOf | template/scripts/build-static.js:323 | the sitemap is given the built pages in build order |
| BuildStatic.BuildStaticSite | template/scripts/build-static.js:275-331 | partials and helpers registered; nothing built without a pages directory; otherwise the pages of the `.html` files, the sitemap of the built pages and robots.txt in `dist` |
| BuildStatic.SitemapOfBuild | template/scripts/build-static.js:229-257 | the sitemap lists each built page at the base URL plus its clean URL, the root page alone with priority 1.0, and robots.txt uses the same base |
| TemplateEngine.LoadJsonData | template/src/js/dev/template-engine.js:64-76 | the parsed body of an ok response, and `{}` for a response that is not ok, a body that does not parse or a failed fetch |
| TemplateEngine.ComponentNameOfFile | template/src/js/dev/template-engine.js:104 | a component `/src/components/<n>.html` is registered as `n` |
| TemplateEngine.ComponentPartialsLoaded | template/src/js/dev/template-engine.js:102-118 | the registered partials are exactly the components that loaded, each with its module's text |
| TemplateEngine.LoadedStep | template/src/js/dev/template-engine.js:106-117 | a component adds its partial and name exactly when it loads |
| TemplateEngine.PageNameOfRoot | template/src/js/dev/template-engine.js:145-162 | `/` and `/index.html` show `index` exactly when its template is served, `home` otherwise |
| TemplateEngine.PageNameOfFile | template/src/js/dev/template-engine.js:163-166 | any other path `<dir>/<n>.html` shows `n` |
| TemplateEngine.PageNameOfPlainPath | template/src/js/dev/template-engine.js:163-166 | a path `<dir>/<n>` shows `n` |
| TemplateEngine.PageNameOfTrailingSlash | template/src/js/dev/template-engine.js:165-166 | a path ending in '/' shows the empty name and loads `/src/pages/.html` |
| TemplateEngine.Engine.RegisterPartial | template/src/js/dev/template-engine.js:28-43 | a registered name is skipped without a request; otherwise fetched, and registered and recorded only on an ok response; a failure rejects and changes nothing |
| TemplateEngine.Engine.LoadTemplate | template/src/js/dev/template-engine.js:46-61 | a cached template is returned without a request; otherwise any response body is compiled and cached; a failed fetch gives `null` and caches nothing |
| TemplateEngine.Engine.RenderTemplate | template/src/js/dev/template-engine.js:79-90 | no `#app` means nothing is loaded; a template not yet cached is fetched and cached when the fetch answers; the element gets the template's output exactly when the template loads and runs; no template exactly when `#app` exists, the template is not cached and the fetch fails; a throw exactly when the cached template fails to run |
| TemplateEngine.Engine.RegisterAllPartials | template/src/js/dev/template-engine.js:93-122 | every component that loads is registered under its component name and recorded, without checking the set; failures are skipped |
| TemplateEngine.Engine.InitTemplates | template/src/js/dev/template-engine.js:125-189 | helpers and components registered, the page chosen by routing, the data the global data overridden by the page data; the template `/src/pages/<name>.html` is cached as `loadTemplate` caches it; the page renders exactly when `#app` exists and the template is cached and runs, and `#app` then holds that output |

## Left out

- I/O and outside services: logging, the AWS CLI, `fetch`, Vite's glob loader, the DOM,
  file reads and writes, directory listings and `os.tmpdir()` are oracles or arguments.
  The model says what is asked of them and how their answers are used.
- Concurrency: the ten uploads of a batch and the registrations under `Promise.all` run
  in list order here. A batch resolves to its records only when all succeed, as
  `Promise.all` does. The order in which concurrent registrations land is not modelled.
- Gzip: the compressed bytes are not modelled, only how the gzip stream ends.
- Time: `Date.now()`, `setTimeout` and the sitemap date are plain arguments or attempt
  counts. The sitemap date is taken once per build rather than once per entry.
- Command text: CLI commands are records with their parameters. Only the `aws`/profile
  prefix and the put-object argument vector are modelled as text.
- `loadConfig`: importing `rswf.config.js` is an argument (`None` when it fails).
- `checkAwsCli`, `checkAwsPrerequisites`, `testAwsCredentials`, `checkS3Bucket`: each
  is one yes/no answer of the outside world.
- `updateConfigFile`: only which branch is taken. The regular-expression splicing of
  the file's text is not modelled.
- `ensureDir` and write failures in the build are not modelled. Every write succeeds.
- `cleanupDistFiles`: the recursive removal of `dist/src` after the build is a
  file-system effect with no result, so it is not modelled.
- Paths: `path.join` is '/'-joining without normalisation, and `rootDir` is abstract.
  Directory entries are plain names.
- JSON values: numbers are integers, without floating point. Arrays and objects keep only
  their truthiness and their `String()` text. Object identity makes two objects never
  `===`. A JSON file that parses to something other than an object is not modelled.
- Handlebars.ContainsHelper: `includes` on an array or on a value without `includes` is
  `None`, not modelled.
- BuildStatic.EntryAssets: a manifest entry that is not an object, or a `css` field that
  is a string rather than an array, is not modelled.
- TemplateEngine.Engine.InitTemplates: the wait for the next animation frame after
  rendering is not modelled, and a template that throws is reported as `Threw` rather
  than as a rejection.
- Compiling a template is modelled as keeping its source. Handlebars compilation and
  execution belong to the library, whose rendering is an argument.
- Strings.ToLower: lower-cases only the ASCII letters `A` to `Z`. `toLowerCase` also
  maps other Unicode letters, which no extension of the content-type table contains.
- Deploy.UploadDist: states each file's outcome (`DeployUpload.UploadOutcome`) and its
  record. The files each upload leaves on disk and its put-object arguments are stated
  per file by `DeployUpload.LocalFs.UploadFileWithMetadata`, not by the batch.
- Deploy.LiveUrl: states only the URL's scheme. The exact text is its body.
- `create-vite-template.js`, `src/js/main.js`, the `myWebsiteName` copies and the Vite
  configuration are not part of this model.
