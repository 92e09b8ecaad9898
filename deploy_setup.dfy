/** `scripts/deploy-setup.js`: the one-time creation of the hosting infrastructure for a
    domain (a Route53 hosted zone, an S3 website bucket, an ACM certificate, a CloudFront
    distribution and the alias records). Every AWS CLI call is answered by an oracle
    argument: a CLI call that fails and a reply that does not parse are both `None`. */
module DeploySetup {
  import opened Strings
  import opened SiteConfig
  import opened AwsCli
  import Deploy

  // ---------------------------------------------------------------------------------
  // Domains

  /** `getRootDomain`: the last two '.'-separated labels, or the name itself when it has
      fewer than two. */
  function GetRootDomain(domain: string): (r: string)
    ensures |Split(domain, '.')| >= 2 ==>
      var parts := Split(domain, '.'); Split(r, '.') == parts[|parts| - 2..]
    ensures |Split(domain, '.')| < 2 ==> r == domain
  {
    var parts := Split(domain, '.');
    if |parts| >= 2 then
      var lastTwo := parts[|parts| - 2..];
      SplitJoin(lastTwo, '.');
      Join(lastTwo, ".")
    else domain
  }

  /** The root of a root domain is itself. */
  lemma GetRootDomainIdempotent(domain: string)
    ensures GetRootDomain(GetRootDomain(domain)) == GetRootDomain(domain)
  {
    var parts := Split(domain, '.');
    if |parts| >= 2 {
      var r := GetRootDomain(domain);
      var lastTwo := parts[|parts| - 2..];
      assert Split(r, '.') == lastTwo;
      assert lastTwo[|lastTwo| - 2..] == lastTwo;
    }
  }

  /** `isSubdomain`: more than two labels. */
  predicate IsSubdomain(domain: string) {
    |Split(domain, '.')| > 2
  }

  /** The names served: the domain alone for a subdomain, the domain and its `www.`
      variant otherwise. The certificate, the distribution's aliases and the alias
      records all use this list. */
  function DomainSet(domain: string): (names: seq<string>)
    ensures |names| == if IsSubdomain(domain) then 1 else 2
    ensures names[0] == domain
    ensures |names| == 2 ==> names[1] == "www." + domain
  {
    if IsSubdomain(domain) then [domain] else [domain, "www." + domain]
  }

  /** The root domain is a suffix of the domain. */
  lemma RootIsSuffix(domain: string)
    ensures IsSuffix(GetRootDomain(domain), domain)
  {
    var parts := Split(domain, '.');
    if |parts| == 2 {
      JoinSplit(domain, '.');
      assert parts[|parts| - 2..] == parts;
    } else if |parts| > 2 {
      var k := |parts| - 2;
      var root := Join(parts[k..], ".");
      assert GetRootDomain(domain) == root;
      JoinSplit(domain, '.');
      JoinAt(parts, ".", k);
      SuffixOfConcat(Join(parts[..k], ".") + ".", root);
    }
  }

  /** Every name served ends with the root domain, so the one hosted zone of the root
      holds all the records. */
  lemma DomainSetInRootZone(domain: string)
    ensures forall n :: n in DomainSet(domain) ==> IsSuffix(GetRootDomain(domain), n)
  {
    var root := GetRootDomain(domain);
    RootIsSuffix(domain);
    var www := "www." + domain;
    assert IsSuffix(domain, www) by {
      assert www[|www| - |domain|..] == domain;
    }
    SuffixOfSuffix(root, domain, www);
  }

  // ---------------------------------------------------------------------------------
  // Configuration and prerequisites

  datatype SetupStage =
    | ConfigLoad
    | ConfigCheck
    | Prerequisites
    | HostedZoneSetup
    | BucketSetup
    | CertificateRequest
    | ValidationRecordSetup
    | CertificateWait
    | DistributionSetup
    | AliasRecordSetup

  /** `validateConfig` of the setup script: only the domain is required. */
  function ValidateSetupConfig(config: Config): (r: Result<string, SetupStage>)
    ensures r.Ok? <==> config.deploy.Some? && Truthy(config.deploy.value.domain)
    ensures r.Ok? ==> r.value == config.deploy.value.domain.value
  {
    if config.deploy.None? || !Truthy(config.deploy.value.domain) then Err(ConfigCheck)
    else Ok(config.deploy.value.domain.value)
  }

  // ---------------------------------------------------------------------------------
  // Hosted zone

  /** The id without its `/hostedzone/` prefix (the first occurrence is removed). */
  function ZoneIdOf(rawId: string): string {
    ReplaceFirst(rawId, "/hostedzone/", "")
  }

  lemma ZoneIdOfPrefixed(id: string)
    ensures ZoneIdOf("/hostedzone/" + id) == id
  {
    ReplaceFirstOfPrefix("/hostedzone/", id, "");
    assert "" + id == id;
  }

  /** `findHostedZone`: `listing` holds the raw ids of the zones named `domain.`, or is
      `None` when the listing failed (a warning). */
  function FindHostedZone(listing: Option<seq<string>>): (id: Option<string>)
    ensures id.Some? <==> listing.Some? && |listing.value| > 0
    ensures id.Some? ==> id.value == ZoneIdOf(listing.value[0])
  {
    if listing.None? || |listing.value| == 0 then None else Some(ZoneIdOf(listing.value[0]))
  }

  datatype HostedZone = HostedZone(hostedZoneId: string, zoneDomain: string, created: bool)

  /** `setupHostedZone`: the zone of the root domain, created when the lookup finds no
      (truthy) id. `listZones(name)` answers the lookup and `createZone(name)` the
      creation together with the name-server query that follows it. */
  function SetupHostedZone(domain: string, listZones: string -> Option<seq<string>>,
                           createZone: string -> Option<string>): (r: Result<HostedZone, SetupStage>)
    ensures var found := FindHostedZone(listZones(GetRootDomain(domain)));
      && (r.Err? <==> !Truthy(found) && createZone(GetRootDomain(domain)).None?)
      && (r.Ok? ==> r.value.zoneDomain == GetRootDomain(domain))
      && (r.Ok? ==> (r.value.created <==> !Truthy(found)))
      && (r.Ok? && !r.value.created ==> r.value.hostedZoneId == found.value)
      && (r.Ok? && r.value.created ==>
            r.value.hostedZoneId == ZoneIdOf(createZone(GetRootDomain(domain)).value))
  {
    var root := GetRootDomain(domain);
    var found := FindHostedZone(listZones(root));
    if Truthy(found) then Ok(HostedZone(found.value, root, false))
    else match createZone(root)
      case None => Err(HostedZoneSetup)
      case Some(rawId) => Ok(HostedZone(ZoneIdOf(rawId), root, true))
  }

  // ---------------------------------------------------------------------------------
  // Bucket

  /** The public-read policy written to `bucket-policy.json`. */
  datatype BucketPolicy = BucketPolicy(version: string, sid: string, effect: string, principal: string,
                                       action: string, resource: string)

  function PublicReadPolicy(bucketName: string): BucketPolicy {
    BucketPolicy("2012-10-17", "PublicReadGetObject", "Allow", "*", "s3:GetObject",
                 "arn:aws:s3:::" + bucketName + "/*")
  }

  datatype BucketCall =
    | CreateBucket(bucket: string, region: string, locationConstraint: Option<string>)
    | DeletePublicAccessBlock(bucket: string)
    | PutBucketVersioning(bucket: string, status: string)
    | PutBucketWebsite(bucket: string, indexSuffix: string, errorKey: string)
    | PutBucketPolicy(bucket: string, policy: BucketPolicy)

  /** The five calls of `createS3Bucket`, in order. The location constraint is passed
      only outside `us-east-1`. */
  function BucketCalls(bucketName: string, region: string): (calls: seq<BucketCall>)
    ensures |calls| == 5
    ensures calls[0].CreateBucket? && calls[0].bucket == bucketName
    ensures calls[0].locationConstraint.None? <==> region == "us-east-1"
    ensures calls[0].locationConstraint.Some? ==> calls[0].locationConstraint.value == region
    ensures forall i :: 0 <= i < 5 ==> calls[i].bucket == bucketName
  {
    [CreateBucket(bucketName, region, if region == "us-east-1" then None else Some(region)),
     DeletePublicAccessBlock(bucketName),
     PutBucketVersioning(bucketName, "Enabled"),
     PutBucketWebsite(bucketName, "index.html", "index.html"),
     PutBucketPolicy(bucketName, PublicReadPolicy(bucketName))]
  }

  /** `createS3Bucket`: the calls are made one after the other and the first failure is
      fatal. `ok` answers each call. Returns the calls made. */
  method CreateS3Bucket(bucketName: string, region: string, ok: BucketCall -> bool)
    returns (calls: seq<BucketCall>, success: bool)
    ensures 1 <= |calls| <= 5 && calls == BucketCalls(bucketName, region)[..|calls|]
    ensures forall j :: 0 <= j < |calls| - 1 ==> ok(calls[j])
    ensures success <==> |calls| == 5 && ok(calls[4])
    ensures !success ==> !ok(calls[|calls| - 1])
    ensures success <==> forall j :: 0 <= j < 5 ==> ok(BucketCalls(bucketName, region)[j])
  {
    var plan := BucketCalls(bucketName, region);
    calls := [plan[0]];
    if !ok(plan[0]) {
      return calls, false;
    }
    calls := calls + [plan[1]];
    if !ok(plan[1]) {
      return calls, false;
    }
    calls := calls + [plan[2]];
    if !ok(plan[2]) {
      return calls, false;
    }
    calls := calls + [plan[3]];
    if !ok(plan[3]) {
      return calls, false;
    }
    calls := calls + [plan[4]];
    if !ok(plan[4]) {
      return calls, false;
    }
    success := true;
  }

  // ---------------------------------------------------------------------------------
  // Certificates

  /** One entry of `acm list-certificates`. */
  datatype CertSummary = CertSummary(certificateArn: string, status: string)

  /** The names `acm describe-certificate` reports for a certificate. */
  datatype CertNames = CertNames(domainName: string, subjectAlternativeNames: Option<seq<string>>)

  /** The domain name followed by the alternative names (none when the field is absent). */
  function CertDomains(n: CertNames): seq<string> {
    [n.domainName] + (if n.subjectAlternativeNames.Some? then n.subjectAlternativeNames.value else [])
  }

  /** Every required name is among the certificate's names; extra names do no harm. */
  predicate Covers(n: CertNames, domains: seq<string>) {
    forall d :: d in domains ==> d in CertDomains(n)
  }

  function ShiftBy(o: Option<nat>, k: nat): Option<nat> {
    if o.Some? then Some(o.value + k) else None
  }

  /** The position of the certificate `findExistingSSLCertificate` settles on: the first
      issued one whose names cover `domains`. A failed describe of an issued certificate
      ends the whole search with nothing, as the try block encloses the loop. */
  function FirstCovering(certs: seq<CertSummary>, domains: seq<string>,
                         describe: string -> Option<CertNames>): (r: Option<nat>)
    ensures r.Some? ==> r.value < |certs|
  {
    if certs == [] then None
    else if certs[0].status != "ISSUED" then ShiftBy(FirstCovering(certs[1..], domains, describe), 1)
    else match describe(certs[0].certificateArn)
      case None => None
      case Some(n) =>
        if Covers(n, domains) then Some(0)
        else ShiftBy(FirstCovering(certs[1..], domains, describe), 1)
  }

  /** The ARN `findExistingSSLCertificate` returns, or nothing; a failed listing finds
      nothing. */
  function ExistingCertificate(domains: seq<string>, listing: Option<seq<CertSummary>>,
                               describe: string -> Option<CertNames>): Option<string>
  {
    if listing.None? then None
    else
      var found := FirstCovering(listing.value, domains, describe);
      if found.Some? then Some(listing.value[found.value].certificateArn) else None
  }

  /** `findExistingSSLCertificate`: `listing` is the certificate list (`None` when the call
      or its parsing fails) and `describe` answers each describe call. */
  method FindExistingCertificate(domains: seq<string>, listing: Option<seq<CertSummary>>,
                                 describe: string -> Option<CertNames>)
    returns (arn: Option<string>)
    ensures arn == ExistingCertificate(domains, listing, describe)
  {
    if listing.None? {
      return None;
    }
    var certs := listing.value;
    var i := 0;
    while i < |certs|
      invariant 0 <= i <= |certs|
      invariant FirstCovering(certs, domains, describe) == ShiftBy(FirstCovering(certs[i..], domains, describe), i)
    {
      FirstCoveringStep(certs, domains, describe, i);
      var cert := certs[i];
      if cert.status == "ISSUED" {
        var details := describe(cert.certificateArn);
        if details.None? {
          return None;
        }
        if Covers(details.value, domains) {
          return Some(cert.certificateArn);
        }
      }
      i := i + 1;
    }
    arn := None;
  }

  lemma FirstCoveringStep(certs: seq<CertSummary>, domains: seq<string>,
                          describe: string -> Option<CertNames>, i: nat)
    requires i < |certs|
    ensures var rest := FirstCovering(certs[i + 1..], domains, describe);
      FirstCovering(certs[i..], domains, describe) ==
        if certs[i].status != "ISSUED" then ShiftBy(rest, 1)
        else if describe(certs[i].certificateArn).None? then None
        else if Covers(describe(certs[i].certificateArn).value, domains) then Some(0)
        else ShiftBy(rest, 1)
  {
    assert certs[i..][1..] == certs[i + 1..];
  }

  /** The certificate found is issued, covers the names, and every issued certificate
      before it was described and does not cover them. */
  lemma {:induction false} FirstCoveringSound(certs: seq<CertSummary>, domains: seq<string>,
                                              describe: string -> Option<CertNames>)
    ensures var r := FirstCovering(certs, domains, describe);
      r.Some? ==>
        && certs[r.value].status == "ISSUED"
        && describe(certs[r.value].certificateArn).Some?
        && Covers(describe(certs[r.value].certificateArn).value, domains)
        && forall j :: 0 <= j < r.value && certs[j].status == "ISSUED" ==>
             describe(certs[j].certificateArn).Some? && !Covers(describe(certs[j].certificateArn).value, domains)
  {
    if certs != [] {
      FirstCoveringSound(certs[1..], domains, describe);
    }
  }

  /** An issued covering certificate is found (it or an earlier one) as long as no
      describe before it fails. */
  lemma {:induction false} FirstCoveringComplete(certs: seq<CertSummary>, domains: seq<string>,
                                                 describe: string -> Option<CertNames>, k: nat)
    requires k < |certs| && certs[k].status == "ISSUED"
    requires describe(certs[k].certificateArn).Some?
    requires Covers(describe(certs[k].certificateArn).value, domains)
    requires forall j :: 0 <= j < k && certs[j].status == "ISSUED" ==> describe(certs[j].certificateArn).Some?
    ensures FirstCovering(certs, domains, describe).Some?
    ensures FirstCovering(certs, domains, describe).value <= k
  {
    if k > 0 {
      var tail := certs[1..];
      forall j | 0 <= j < k - 1 && tail[j].status == "ISSUED"
        ensures describe(tail[j].certificateArn).Some?
      {
        assert tail[j] == certs[j + 1];
      }
      FirstCoveringComplete(tail, domains, describe, k - 1);
    }
  }

  /** A failed describe of an issued certificate ends the search with nothing, even when
      a later certificate would have covered the names. */
  lemma {:induction false} DescribeFailureAborts(certs: seq<CertSummary>, domains: seq<string>,
                                                 describe: string -> Option<CertNames>, k: nat)
    requires k < |certs| && certs[k].status == "ISSUED" && describe(certs[k].certificateArn).None?
    requires forall j :: 0 <= j < k && certs[j].status == "ISSUED" ==>
      describe(certs[j].certificateArn).Some? && !Covers(describe(certs[j].certificateArn).value, domains)
    ensures FirstCovering(certs, domains, describe).None?
  {
    if k > 0 {
      var tail := certs[1..];
      forall j | 0 <= j < k - 1 && tail[j].status == "ISSUED"
        ensures describe(tail[j].certificateArn).Some? && !Covers(describe(tail[j].certificateArn).value, domains)
      {
        assert tail[j] == certs[j + 1];
      }
      DescribeFailureAborts(tail, domains, describe, k - 1);
    }
  }

  /** The arguments of `acm request-certificate`: the first name as domain name, the rest
      as alternative names (the flag is left out when there are none), DNS validation in
      `us-east-1`. */
  datatype CertRequest = CertRequest(domainName: string, subjectAlternativeNames: seq<string>,
                                     validationMethod: string, region: string)

  function CertRequestFor(domain: string): (req: CertRequest)
    ensures [req.domainName] + req.subjectAlternativeNames == DomainSet(domain)
    ensures req.validationMethod == "DNS" && req.region == "us-east-1"
  {
    var domains := DomainSet(domain);
    CertRequest(domains[0], domains[1..], "DNS", "us-east-1")
  }

  /** A certificate issued for the request covers the names of a later run, so that run
      reuses it. */
  lemma RequestedCertificateCovers(domain: string)
    ensures var req := CertRequestFor(domain);
      Covers(CertNames(req.domainName, Some(req.subjectAlternativeNames)), DomainSet(domain))
  {
    var req := CertRequestFor(domain);
    assert CertDomains(CertNames(req.domainName, Some(req.subjectAlternativeNames))) == DomainSet(domain);
  }

  /** The `ResourceRecord` of a domain validation option; a field may be absent. */
  datatype ResourceRecord = ResourceRecord(name: Option<string>, rtype: Option<string>, value: Option<string>)

  datatype ValidationOption = ValidationOption(domainName: string, resourceRecord: Option<ResourceRecord>)

  /** The record exists and its name, type and value are all truthy. */
  predicate HasResourceRecord(o: ValidationOption) {
    o.resourceRecord.Some? && Truthy(o.resourceRecord.value.name) && Truthy(o.resourceRecord.value.rtype)
    && Truthy(o.resourceRecord.value.value)
  }

  /** One describe during the wait for the records: `None` when the call or its parsing
      fails, `Some(None)` when there are no `DomainValidationOptions` yet. */
  type DescribeReply = Option<Option<seq<ValidationOption>>>

  /** The reply the wait accepts: every option has its record, which an empty list
      satisfies vacuously. */
  predicate RecordsReady(reply: DescribeReply) {
    reply.Some? && reply.value.Some? && forall o :: o in reply.value.value ==> HasResourceRecord(o)
  }

  const MaxRecordAttempts := 30

  /** The first attempt from `k` on whose reply is ready, if one of the 30 is. */
  function FirstReadyFrom(poll: nat -> DescribeReply, k: nat): (r: Option<nat>)
    requires k <= MaxRecordAttempts
    ensures r.Some? ==> k <= r.value < MaxRecordAttempts && RecordsReady(poll(r.value))
    ensures r.Some? ==> forall j :: k <= j < r.value ==> !RecordsReady(poll(j))
    ensures r.None? ==> forall j :: k <= j < MaxRecordAttempts ==> !RecordsReady(poll(j))
    decreases MaxRecordAttempts - k
  {
    if k == MaxRecordAttempts then None
    else if RecordsReady(poll(k)) then Some(k)
    else FirstReadyFrom(poll, k + 1)
  }

  /** The polling loop of `requestSSLCertificate`: `poll(k)` answers the describe of
      attempt `k`. Returns the options of the first ready reply, or nothing after 30
      attempts. */
  method PollValidationRecords(poll: nat -> DescribeReply)
    returns (records: Option<seq<ValidationOption>>, attempts: nat)
    ensures records.Some? ==> attempts < MaxRecordAttempts && RecordsReady(poll(attempts))
                              && records.value == poll(attempts).value.value
    ensures records.None? ==> attempts == MaxRecordAttempts
    ensures forall j :: 0 <= j < attempts ==> !RecordsReady(poll(j))
    ensures records.Some? <==> FirstReadyFrom(poll, 0).Some?
    ensures records.Some? ==> attempts == FirstReadyFrom(poll, 0).value
  {
    records, attempts := None, 0;
    while records.None? && attempts < MaxRecordAttempts
      invariant attempts <= MaxRecordAttempts
      invariant records.None?
      invariant forall j :: 0 <= j < attempts ==> !RecordsReady(poll(j))
      invariant FirstReadyFrom(poll, 0) == FirstReadyFrom(poll, attempts)
    {
      var reply := poll(attempts);
      if reply.Some? && reply.value.Some? {
        var domainOptions := reply.value.value;
        if forall o :: o in domainOptions ==> HasResourceRecord(o) {
          records := Some(domainOptions);
          break;
        }
      }
      attempts := attempts + 1;
    }
  }

  datatype RequestedCertificate = RequestedCertificate(certificateArn: string, validationRecords: seq<ValidationOption>)

  /** `requestSSLCertificate`: `request` answers the request with the new ARN (`None` when
      it fails); a timeout of the poll is fatal. */
  method RequestSslCertificate(domain: string, request: CertRequest -> Option<string>,
                               poll: nat -> DescribeReply)
    returns (r: Result<RequestedCertificate, SetupStage>, attempts: nat)
    ensures request(CertRequestFor(domain)).None? ==> r == Err(CertificateRequest) && attempts == 0
    ensures r.Ok? ==> r.value.certificateArn == request(CertRequestFor(domain)).value
    ensures r.Ok? ==> attempts < MaxRecordAttempts && RecordsReady(poll(attempts))
                      && r.value.validationRecords == poll(attempts).value.value
    ensures request(CertRequestFor(domain)).Some? ==>
      (r.Err? <==> forall j :: 0 <= j < MaxRecordAttempts ==> !RecordsReady(poll(j)))
    ensures r.Ok? <==> request(CertRequestFor(domain)).Some? && FirstReadyFrom(poll, 0).Some?
    ensures r.Ok? ==> attempts == FirstReadyFrom(poll, 0).value
  {
    var arn := request(CertRequestFor(domain));
    if arn.None? {
      return Err(CertificateRequest), 0;
    }
    var records;
    records, attempts := PollValidationRecords(poll);
    if records.None? {
      return Err(CertificateRequest), attempts;
    }
    r := Ok(RequestedCertificate(arn.value, records.value));
  }

  // ---------------------------------------------------------------------------------
  // Record changes

  datatype RecordChange =
    | Upsert(name: string, rtype: string, ttl: nat, value: string)
    | CreateAlias(name: string, dnsName: string, aliasHostedZoneId: string, evaluateTargetHealth: bool)

  /** One `change-resource-record-sets` call: the zone and its single change. */
  datatype ChangeBatch = ChangeBatch(hostedZoneId: string, change: RecordChange)

  const ValidationTtl: nat := 300

  /** The fixed hosted zone of every CloudFront distribution. */
  const CloudFrontZoneId := "Z2FDTNDATAQYW2"

  function UpsertFor(hostedZoneId: string, o: ValidationOption): (b: ChangeBatch)
    requires HasResourceRecord(o)
    ensures b.change.Upsert? && b.change.ttl == ValidationTtl && b.hostedZoneId == hostedZoneId
  {
    var rr := o.resourceRecord.value;
    ChangeBatch(hostedZoneId, Upsert(rr.name.value, rr.rtype.value, ValidationTtl, rr.value.value))
  }

  /** A validation record is in place: its UPSERT succeeded, or the lookup of the record
      that follows a failure answers (after trimming) with the expected value. */
  predicate Settled(b: ChangeBatch, upsertOk: ChangeBatch -> bool, existing: ChangeBatch -> Option<string>) {
    upsertOk(b) || (b.change.Upsert? && existing(b).Some? && Trim(existing(b).value) == b.change.value)
  }

  /** `createValidationRecords`: an empty list is fatal; each record is UPSERTed in turn
      and the first one that is not settled is fatal. Returns the batches sent. */
  method CreateValidationRecords(hostedZoneId: string, records: seq<ValidationOption>,
                                 upsertOk: ChangeBatch -> bool, existing: ChangeBatch -> Option<string>)
    returns (sent: seq<ChangeBatch>, ok: bool)
    requires forall o :: o in records ==> HasResourceRecord(o)
    ensures |sent| <= |records|
    ensures forall j :: 0 <= j < |sent| ==> sent[j] == UpsertFor(hostedZoneId, records[j])
    ensures ok <==> |records| > 0 && forall j :: 0 <= j < |records| ==>
                                       Settled(UpsertFor(hostedZoneId, records[j]), upsertOk, existing)
    ensures ok ==> |sent| == |records|
    ensures !ok && |records| > 0 ==> |sent| > 0 && !Settled(sent[|sent| - 1], upsertOk, existing)
  {
    sent := [];
    if |records| == 0 {
      return sent, false;
    }
    for i := 0 to |records|
      invariant |sent| == i
      invariant forall j :: 0 <= j < i ==> sent[j] == UpsertFor(hostedZoneId, records[j])
      invariant forall j :: 0 <= j < i ==> Settled(sent[j], upsertOk, existing)
    {
      var batch := UpsertFor(hostedZoneId, records[i]);
      sent := sent + [batch];
      if !upsertOk(batch) {
        var existingValue := existing(batch);
        if existingValue.None? || Trim(existingValue.value) != batch.change.value {
          return sent, false;
        }
      }
    }
    ok := true;
  }

  datatype ValidationWait = Issued(attempt: nat) | ValidationFailed(attempt: nat) | WaitTimedOut

  const MaxValidationAttempts := 60

  /** The status answer `ISSUED`, once trimmed. */
  predicate IsIssued(status: Option<string>) {
    status.Some? && Trim(status.value) == "ISSUED"
  }

  /** The status answer `FAILED`, once trimmed. */
  predicate IsFailed(status: Option<string>) {
    status.Some? && Trim(status.value) == "FAILED"
  }

  /** A status that ends the wait: `ISSUED` or `FAILED` once trimmed. A failed call
      (`None`) or any other status keeps waiting. */
  predicate Decisive(status: Option<string>) {
    IsIssued(status) || IsFailed(status)
  }

  /** How the wait ends from attempt `k` on: at the first decisive status, or by timing
      out after the 60th attempt. */
  function WaitFrom(status: nat -> Option<string>, k: nat): (w: ValidationWait)
    requires k <= MaxValidationAttempts
    ensures w.Issued? ==> k <= w.attempt < MaxValidationAttempts && IsIssued(status(w.attempt))
    ensures w.ValidationFailed? ==> k <= w.attempt < MaxValidationAttempts && IsFailed(status(w.attempt))
    ensures !w.WaitTimedOut? ==> forall j :: k <= j < w.attempt ==> !Decisive(status(j))
    ensures w.WaitTimedOut? ==> forall j :: k <= j < MaxValidationAttempts ==> !Decisive(status(j))
    decreases MaxValidationAttempts - k
  {
    if k == MaxValidationAttempts then WaitTimedOut
    else if IsIssued(status(k)) then Issued(k)
    else if IsFailed(status(k)) then ValidationFailed(k)
    else WaitFrom(status, k + 1)
  }

  /** `waitForCertificateValidation`: `status(k)` answers the status query of attempt `k`. */
  method WaitForCertificateValidation(status: nat -> Option<string>) returns (w: ValidationWait)
    ensures w == WaitFrom(status, 0)
  {
    for attempts := 0 to MaxValidationAttempts
      invariant WaitFrom(status, 0) == WaitFrom(status, attempts)
    {
      var reply := status(attempts);
      if IsIssued(reply) {
        return Issued(attempts);
      }
      if IsFailed(reply) {
        return ValidationFailed(attempts);
      }
    }
    w := WaitTimedOut;
  }

  // ---------------------------------------------------------------------------------
  // CloudFront distribution

  datatype Origin = Origin(id: string, domainName: string, httpPort: nat, httpsPort: nat,
                           originProtocolPolicy: string)

  /** A cache behaviour; the default one has no path pattern. Trusted signers are off and
      neither query strings nor cookies are forwarded in all of them. */
  datatype CacheBehavior = CacheBehavior(
    pathPattern: Option<string>,
    targetOriginId: string,
    viewerProtocolPolicy: string,
    trustedSignersEnabled: bool,
    forwardQueryString: bool,
    forwardCookies: string,
    minTtl: nat,
    defaultTtl: nat,
    maxTtl: nat,
    compress: bool)

  datatype ErrorResponse = ErrorResponse(errorCode: nat, responsePagePath: string, responseCode: string,
                                         errorCachingMinTtl: nat)

  datatype ViewerCertificate = ViewerCertificate(acmCertificateArn: string, sslSupportMethod: string,
                                                 minimumProtocolVersion: string)

  datatype DistributionConfig = DistributionConfig(
    callerReference: string,
    aliases: Counted<string>,
    defaultRootObject: string,
    comment: string,
    enabled: bool,
    origins: Counted<Origin>,
    defaultCacheBehavior: CacheBehavior,
    cacheBehaviors: Counted<CacheBehavior>,
    customErrorResponses: Counted<ErrorResponse>,
    viewerCertificate: ViewerCertificate,
    priceClass: string)

  const S3OriginId := "S3Origin"

  /** The S3 website endpoint of the bucket. */
  function OriginDomain(bucketName: string, region: string): string {
    bucketName + ".s3-website-" + region + ".amazonaws.com"
  }

  function Behavior(pathPattern: Option<string>, minTtl: nat, defaultTtl: nat, maxTtl: nat): CacheBehavior {
    CacheBehavior(pathPattern, S3OriginId, "redirect-to-https", false, false, "none", minTtl, defaultTtl, maxTtl, true)
  }

  /** The distribution configuration `createCloudFrontDistribution` writes; `now` stands
      for `Date.now()` in the caller reference. */
  function DistributionConfigFor(bucketName: string, domain: string, certificateArn: string,
                                 region: string, now: string): (c: DistributionConfig)
    ensures c.aliases.items == DomainSet(domain) && c.aliases.quantity == |c.aliases.items|
    ensures c.origins.quantity == |c.origins.items| && |c.origins.items| == 1
    ensures c.origins.items[0].domainName == OriginDomain(bucketName, region)
    ensures c.cacheBehaviors.quantity == |c.cacheBehaviors.items|
    ensures c.customErrorResponses.quantity == |c.customErrorResponses.items|
    ensures var all := [c.defaultCacheBehavior] + c.cacheBehaviors.items;
      forall b :: b in all ==>
        b.targetOriginId == c.origins.items[0].id && b.viewerProtocolPolicy == "redirect-to-https"
        && b.minTtl <= b.defaultTtl <= b.maxTtl
    ensures c.viewerCertificate.acmCertificateArn == certificateArn
    ensures IsPrefix("rswf-", c.callerReference)
  {
    DistributionConfig(
      "rswf-" + now,
      Count(DomainSet(domain)),
      "index.html",
      "RSWF distribution for " + domain,
      true,
      Count([Origin(S3OriginId, OriginDomain(bucketName, region), 80, 443, "http-only")]),
      Behavior(None, 0, 86400, 31536000),
      Count([Behavior(Some("*.html"), 0, 3600, 86400), Behavior(Some("/assets/*"), 0, 31536000, 31536000)]),
      Count([ErrorResponse(404, "/index.html", "200", 300)]),
      ViewerCertificate(certificateArn, "sni-only", "TLSv1.2_2021"),
      "PriceClass_100")
  }

  /** Pages are cached for at most a day and assets for a year, and a missing path is
      answered with the single-page entry point. */
  lemma DistributionCaching(bucketName: string, domain: string, certificateArn: string, region: string, now: string)
    ensures var c := DistributionConfigFor(bucketName, domain, certificateArn, region, now);
      && c.defaultRootObject == "index.html"
      && (forall b :: b in c.cacheBehaviors.items && b.pathPattern == Some("*.html") ==> b.maxTtl == 86400)
      && (forall b :: b in c.cacheBehaviors.items && b.pathPattern == Some("/assets/*") ==>
            b.defaultTtl == b.maxTtl == 31536000)
      && (forall e :: e in c.customErrorResponses.items ==>
            e.errorCode == 404 && e.responsePagePath == "/" + c.defaultRootObject && e.responseCode == "200")
  {
    var c := DistributionConfigFor(bucketName, domain, certificateArn, region, now);
    assert "/" + c.defaultRootObject == "/index.html";
  }

  /** The origin is the bucket endpoint that `deploy` reports as the site's address while
      no distribution id is configured. */
  lemma OriginIsDeployEndpoint(d: DeploySection)
    requires Truthy(d.bucketName) && Truthy(d.region)
    requires d.cloudfront.None? || !Truthy(d.cloudfront.value.distributionId)
    ensures Deploy.LiveUrl(d) == "https://" + OriginDomain(d.bucketName.value, d.region.value)
  {
  }

  datatype DistributionInfo = DistributionInfo(distributionId: string, distributionDomain: string)

  /** `createCloudFrontDistribution`: `create` answers the creation call (`None` when it
      fails, which is fatal). */
  function CreateCloudFrontDistribution(bucketName: string, domain: string, certificateArn: string,
                                        region: string, now: string,
                                        create: DistributionConfig -> Option<DistributionInfo>)
    : (r: Result<DistributionInfo, SetupStage>)
    ensures r.Ok? <==> create(DistributionConfigFor(bucketName, domain, certificateArn, region, now)).Some?
    ensures r.Ok? ==> r.value == create(DistributionConfigFor(bucketName, domain, certificateArn, region, now)).value
    ensures r.Err? ==> r.error == DistributionSetup
  {
    match create(DistributionConfigFor(bucketName, domain, certificateArn, region, now))
    case None => Err(DistributionSetup)
    case Some(info) => Ok(info)
  }

  // ---------------------------------------------------------------------------------
  // Alias records

  function AliasBatch(hostedZoneId: string, name: string, distributionDomain: string): ChangeBatch {
    ChangeBatch(hostedZoneId, CreateAlias(name, distributionDomain, CloudFrontZoneId, false))
  }

  /** The reply to one CREATE: `None` when it succeeds, else the error message. A message
      saying the record already exists is skipped. */
  predicate AliasAccepted(reply: Option<string>) {
    reply.None? || Contains(reply.value, "already exists")
  }

  /** `createDNSRecords`: one CREATE of an A alias to the distribution per served name;
      any other error is fatal. Returns the batches sent. */
  method CreateDnsRecords(hostedZoneId: string, domain: string, distributionDomain: string,
                          reply: ChangeBatch -> Option<string>)
    returns (sent: seq<ChangeBatch>, ok: bool)
    ensures |sent| <= |DomainSet(domain)|
    ensures forall j :: 0 <= j < |sent| ==> sent[j] == AliasBatch(hostedZoneId, DomainSet(domain)[j], distributionDomain)
    ensures ok <==> forall j :: 0 <= j < |DomainSet(domain)| ==>
                      AliasAccepted(reply(AliasBatch(hostedZoneId, DomainSet(domain)[j], distributionDomain)))
    ensures ok ==> |sent| == |DomainSet(domain)|
    ensures !ok ==> |sent| > 0 && !AliasAccepted(reply(sent[|sent| - 1]))
  {
    var records := DomainSet(domain);
    sent := [];
    for i := 0 to |records|
      invariant |sent| == i
      invariant forall j :: 0 <= j < i ==> sent[j] == AliasBatch(hostedZoneId, records[j], distributionDomain)
      invariant forall j :: 0 <= j < i ==> AliasAccepted(reply(sent[j]))
    {
      var batch := AliasBatch(hostedZoneId, records[i], distributionDomain);
      sent := sent + [batch];
      var error := reply(batch);
      if error.Some? && !Contains(error.value, "already exists") {
        return sent, false;
      }
    }
    ok := true;
  }

  /** Every served name gets an alias in the root zone: the alias records partner the
      certificate and the distribution's aliases, which name the same list. */
  lemma AliasesMatchDistribution(hostedZoneId: string, domain: string, distributionDomain: string,
                                 bucketName: string, certificateArn: string, region: string, now: string)
    ensures var c := DistributionConfigFor(bucketName, domain, certificateArn, region, now);
      forall j :: 0 <= j < |c.aliases.items| ==>
        AliasBatch(hostedZoneId, DomainSet(domain)[j], distributionDomain).change.name == c.aliases.items[j]
  {
  }

  // ---------------------------------------------------------------------------------
  // Configuration update and temporary files

  /** Which of the three edits `updateConfigFile` makes, or the manual instructions it
      prints when reading or writing the file fails. */
  datatype ConfigUpdate = ReplaceDistributionId | AddCloudFrontSection | InsertDistributionId | ManualUpdate

  function UpdateConfigBranch(content: Option<string>, writeOk: bool): (u: ConfigUpdate)
    ensures u == ManualUpdate <==> content.None? || !writeOk
    ensures u == ReplaceDistributionId ==> Contains(content.value, "distributionId:")
    ensures u == AddCloudFrontSection ==>
      !Contains(content.value, "distributionId:") && !Contains(content.value, "cloudfront:")
    ensures u == InsertDistributionId ==>
      !Contains(content.value, "distributionId:") && Contains(content.value, "cloudfront:")
  {
    if content.None? || !writeOk then ManualUpdate
    else if Contains(content.value, "distributionId:") then ReplaceDistributionId
    else if !Contains(content.value, "cloudfront:") then AddCloudFrontSection
    else InsertDistributionId
  }

  /** The files the script writes into the system's temporary directory. */
  const TempFiles: seq<string> := ["website-config.json", "bucket-policy.json", "validation-record.json",
                                   "distribution-config.json", "dns-record.json"]

  /** The names present in the temporary directory. */
  class TempDir {
    var files: set<string>

    constructor (existing: set<string>)
      ensures files == existing
    {
      files := existing;
    }

    /** `fs.writeFileSync` of a temporary file. */
    method Write(name: string)
      modifies this
      ensures files == old(files) + {name}
    {
      files := files + {name};
    }

    /** `cleanup`: each temporary file that exists is removed. */
    method Cleanup()
      modifies this
      ensures files == old(files) - set n | n in TempFiles
    {
      for i := 0 to |TempFiles|
        invariant files == old(files) - set n | n in TempFiles[..i]
      {
        if TempFiles[i] in files {
          files := files - {TempFiles[i]};
        }
      }
      assert TempFiles[..|TempFiles|] == TempFiles;
    }
  }

  // ---------------------------------------------------------------------------------
  // The whole setup

  /** What one run uses: the domain, `bucketName || domain` and `region || 'us-east-1'`. */
  datatype Settings = Settings(domain: string, bucketName: string, region: string)

  function SettingsOf(d: DeploySection): (s: Settings)
    requires Truthy(d.domain)
  {
    Settings(d.domain.value, OrElse(d.bucketName, d.domain.value), OrElse(d.region, "us-east-1"))
  }

  /** The answers of everything outside the script during one run: the configuration file
      (`None` when it is missing or fails to load), the CLI and the AWS services. */
  datatype SetupWorld = SetupWorld(
    config: Option<Config>,
    cliInstalled: bool,
    credentialsValid: bool,
    listZones: string -> Option<seq<string>>,
    createZone: string -> Option<string>,
    bucketExists: bool,
    bucketCallOk: BucketCall -> bool,
    certListing: Option<seq<CertSummary>>,
    describeCert: string -> Option<CertNames>,
    requestCert: CertRequest -> Option<string>,
    pollRecords: nat -> DescribeReply,
    upsertOk: ChangeBatch -> bool,
    existingValue: ChangeBatch -> Option<string>,
    certStatus: nat -> Option<string>,
    createDistribution: DistributionConfig -> Option<DistributionInfo>,
    aliasReply: ChangeBatch -> Option<string>,
    configContent: Option<string>,
    configWriteOk: bool,
    now: string)

  /** Step 3 as it ran: the certificate found, or the request, its validation records and
      the wait for its validation. */
  datatype CertificateStep = CertificateStep(
    existing: Option<string>,
    requested: Option<RequestedCertificate>,
    validationBatches: seq<ChangeBatch>,
    validationWait: Option<ValidationWait>)

  /** Steps 4 to 6 as they ran. */
  datatype FinishStep = FinishStep(
    distribution: Option<DistributionInfo>,
    aliasBatches: seq<ChangeBatch>,
    configUpdate: Option<ConfigUpdate>)

  /** What a run did; a step that did not run leaves its field empty. */
  datatype SetupReport = SetupReport(
    settings: Option<Settings>,
    zone: Option<HostedZone>,
    bucketCalls: seq<BucketCall>,
    certificate: Option<CertificateStep>,
    finish: Option<FinishStep>)

  const NothingDone := SetupReport(None, None, [], None, None)

  /** A run ends with every resource in place, or with exit status 1 at some stage. */
  datatype SetupOutcome = Completed(certificateArn: string, distributionId: string) | Failed(stage: SetupStage)

  // The stage at which a run stops, as a function of the world it meets; the methods
  // below are proved against these.

  /** Step 2 leaves a bucket: `head-bucket` finds it, or all five creation calls succeed. */
  predicate BucketReady(settings: Settings, world: SetupWorld) {
    world.bucketExists
    || forall j :: 0 <= j < 5 ==> world.bucketCallOk(BucketCalls(settings.bucketName, settings.region)[j])
  }

  /** The certificate request is answered and one of the 30 describes is ready. */
  predicate CertificateRequested(settings: Settings, world: SetupWorld) {
    world.requestCert(CertRequestFor(settings.domain)).Some? && FirstReadyFrom(world.pollRecords, 0).Some?
  }

  /** The validation options of the first ready describe. */
  function RequestedRecords(world: SetupWorld): (records: seq<ValidationOption>)
    requires FirstReadyFrom(world.pollRecords, 0).Some?
    ensures forall o :: o in records ==> HasResourceRecord(o)
  {
    world.pollRecords(FirstReadyFrom(world.pollRecords, 0).value).value.value
  }

  /** There is at least one validation record and each of them is settled in the zone. */
  predicate RecordsSettled(zoneId: string, records: seq<ValidationOption>, world: SetupWorld)
    requires forall o :: o in records ==> HasResourceRecord(o)
  {
    |records| > 0
    && forall j :: 0 <= j < |records| ==> Settled(UpsertFor(zoneId, records[j]), world.upsertOk, world.existingValue)
  }

  /** Where step 3 stops, if it does: nothing when a certificate covers the domains;
      otherwise at the request, the validation records or the wait for `ISSUED`. */
  function CertificateFailure(settings: Settings, zoneId: string, world: SetupWorld): (r: Option<SetupStage>)
    ensures r.Some? ==> r.value in {CertificateRequest, ValidationRecordSetup, CertificateWait}
    ensures ExistingCertificate(DomainSet(settings.domain), world.certListing, world.describeCert).Some? ==> r.None?
    ensures r == Some(CertificateRequest) <==>
      ExistingCertificate(DomainSet(settings.domain), world.certListing, world.describeCert).None?
      && !CertificateRequested(settings, world)
    ensures r == Some(ValidationRecordSetup) <==>
      ExistingCertificate(DomainSet(settings.domain), world.certListing, world.describeCert).None?
      && CertificateRequested(settings, world) && !RecordsSettled(zoneId, RequestedRecords(world), world)
    ensures r == Some(CertificateWait) <==>
      ExistingCertificate(DomainSet(settings.domain), world.certListing, world.describeCert).None?
      && CertificateRequested(settings, world) && RecordsSettled(zoneId, RequestedRecords(world), world)
      && !WaitFrom(world.certStatus, 0).Issued?
  {
    if ExistingCertificate(DomainSet(settings.domain), world.certListing, world.describeCert).Some? then None
    else if !CertificateRequested(settings, world) then Some(CertificateRequest)
    else if !RecordsSettled(zoneId, RequestedRecords(world), world) then Some(ValidationRecordSetup)
    else if !WaitFrom(world.certStatus, 0).Issued? then Some(CertificateWait)
    else None
  }

  /** The ARN step 3 settles on: the existing certificate's, else the requested one's. */
  function CertificateArnOf(settings: Settings, world: SetupWorld): string
    requires ExistingCertificate(DomainSet(settings.domain), world.certListing, world.describeCert).Some?
             || world.requestCert(CertRequestFor(settings.domain)).Some?
  {
    var existing := ExistingCertificate(DomainSet(settings.domain), world.certListing, world.describeCert);
    if existing.Some? then existing.value else world.requestCert(CertRequestFor(settings.domain)).value
  }

  /** Every served name's alias CREATE is accepted. */
  predicate AliasesAccepted(zoneId: string, domain: string, distributionDomain: string,
                            reply: ChangeBatch -> Option<string>) {
    forall j :: 0 <= j < |DomainSet(domain)| ==>
      AliasAccepted(reply(AliasBatch(zoneId, DomainSet(domain)[j], distributionDomain)))
  }

  /** Where steps 4 to 6 stop, if they do, for the certificate `arn`. */
  function FinishFailure(settings: Settings, zoneId: string, arn: string, world: SetupWorld): (r: Option<SetupStage>)
    ensures r.Some? ==> r.value in {DistributionSetup, AliasRecordSetup}
    ensures var config := DistributionConfigFor(settings.bucketName, settings.domain, arn, settings.region, world.now);
      r == Some(DistributionSetup) <==> world.createDistribution(config).None?
    ensures var config := DistributionConfigFor(settings.bucketName, settings.domain, arn, settings.region, world.now);
      r == Some(AliasRecordSetup) <==>
        && world.createDistribution(config).Some?
        && !AliasesAccepted(zoneId, settings.domain, world.createDistribution(config).value.distributionDomain,
                            world.aliasReply)
  {
    var created := CreateCloudFrontDistribution(settings.bucketName, settings.domain, arn, settings.region,
                                                world.now, world.createDistribution);
    if created.Err? then Some(DistributionSetup)
    else if !AliasesAccepted(zoneId, settings.domain, created.value.distributionDomain, world.aliasReply)
    then Some(AliasRecordSetup)
    else None
  }

  /** Where steps 3 to 6 stop, if they do. */
  function ServeFailure(settings: Settings, zoneId: string, world: SetupWorld): (r: Option<SetupStage>)
    ensures r.Some? ==> r.value in {CertificateRequest, ValidationRecordSetup, CertificateWait,
                                    DistributionSetup, AliasRecordSetup}
    ensures CertificateFailure(settings, zoneId, world).Some? ==> r == CertificateFailure(settings, zoneId, world)
  {
    var certificate := CertificateFailure(settings, zoneId, world);
    if certificate.Some? then certificate
    else FinishFailure(settings, zoneId, CertificateArnOf(settings, world), world)
  }

  /** Where the steps after the configuration checks stop, if they do. */
  function ResourcesFailure(settings: Settings, world: SetupWorld): (r: Option<SetupStage>)
    ensures r.Some? ==> r.value !in {ConfigLoad, ConfigCheck, Prerequisites}
    ensures r == Some(HostedZoneSetup) <==> SetupHostedZone(settings.domain, world.listZones, world.createZone).Err?
    ensures r == Some(BucketSetup) <==>
      SetupHostedZone(settings.domain, world.listZones, world.createZone).Ok? && !BucketReady(settings, world)
  {
    var zone := SetupHostedZone(settings.domain, world.listZones, world.createZone);
    if zone.Err? then Some(HostedZoneSetup)
    else if !BucketReady(settings, world) then Some(BucketSetup)
    else ServeFailure(settings, zone.value.hostedZoneId, world)
  }

  /** Where a run of `setupInfrastructure` stops, or `None` when it completes. */
  function SetupFailure(world: SetupWorld): (r: Option<SetupStage>)
    ensures r == Some(ConfigLoad) <==> world.config.None?
    ensures r == Some(ConfigCheck) <==> world.config.Some? && ValidateSetupConfig(world.config.value).Err?
    ensures r == Some(Prerequisites) <==>
      world.config.Some? && ValidateSetupConfig(world.config.value).Ok?
      && !(world.cliInstalled && world.credentialsValid)
  {
    if world.config.None? then Some(ConfigLoad)
    else if ValidateSetupConfig(world.config.value).Err? then Some(ConfigCheck)
    else if !world.cliInstalled || !world.credentialsValid then Some(Prerequisites)
    else ResourcesFailure(SettingsOf(world.config.value.deploy.value), world)
  }

  /** A world in which every call succeeds at its first attempt lets the run complete,
      whether or not a certificate already covers the domain. */
  lemma {:induction false} EverythingSucceedsCompletes(world: SetupWorld)
    requires world.config.Some? && ValidateSetupConfig(world.config.value).Ok?
    requires world.cliInstalled && world.credentialsValid
    requires forall name :: world.createZone(name).Some?
    requires forall c :: world.bucketCallOk(c)
    requires forall req :: world.requestCert(req).Some?
    requires RecordsReady(world.pollRecords(0)) && |world.pollRecords(0).value.value| > 0
    requires forall b :: world.upsertOk(b)
    requires IsIssued(world.certStatus(0))
    requires forall c :: world.createDistribution(c).Some?
    requires forall b :: world.aliasReply(b).None?
    ensures SetupFailure(world).None?
  {
    var settings := SettingsOf(world.config.value.deploy.value);
    var zone := SetupHostedZone(settings.domain, world.listZones, world.createZone);
    assert zone.Ok?;
    assert BucketReady(settings, world);
    assert FirstReadyFrom(world.pollRecords, 0) == Some(0);
    assert WaitFrom(world.certStatus, 0) == Issued(0);
    assert CertificateFailure(settings, zone.value.hostedZoneId, world).None?;
  }

  /** Steps 1 and 2: the hosted zone, then the bucket unless `head-bucket` finds it. */
  method SetupZoneAndBucket(settings: Settings, world: SetupWorld, tmp: TempDir)
    returns (zone: Result<HostedZone, SetupStage>, bucketCalls: seq<BucketCall>, ok: bool)
    modifies tmp
    ensures zone == SetupHostedZone(settings.domain, world.listZones, world.createZone)
    ensures zone.Err? ==> !ok && bucketCalls == []
    ensures bucketCalls != [] ==> !world.bucketExists
    ensures |bucketCalls| <= 5
    ensures bucketCalls == BucketCalls(settings.bucketName, settings.region)[..|bucketCalls|]
    ensures ok <==> zone.Ok? && (world.bucketExists || (|bucketCalls| == 5 && forall j :: 0 <= j < 5 ==> world.bucketCallOk(bucketCalls[j])))
    ensures zone.Ok? && !world.bucketExists ==> |bucketCalls| >= 1
    ensures ok <==> zone.Ok? && BucketReady(settings, world)
    ensures old(tmp.files) <= tmp.files <= old(tmp.files) + set n | n in TempFiles
  {
    bucketCalls := [];
    zone := SetupHostedZone(settings.domain, world.listZones, world.createZone);
    if zone.Err? {
      return zone, bucketCalls, false;
    }
    ok := true;
    if !world.bucketExists {
      bucketCalls, ok := CreateS3Bucket(settings.bucketName, settings.region, world.bucketCallOk);
      if |bucketCalls| >= 4 {
        tmp.Write(TempFiles[0]);
      }
      if |bucketCalls| == 5 {
        tmp.Write(TempFiles[1]);
      }
    }
  }

  /** Step 3: an existing certificate, or a new one whose records are created and whose
      validation is waited for. Returns the ARN in use. */
  method SetupCertificate(settings: Settings, zoneId: string, world: SetupWorld, tmp: TempDir)
    returns (arn: Result<string, SetupStage>, step: CertificateStep)
    modifies tmp
    ensures step.existing == ExistingCertificate(DomainSet(settings.domain), world.certListing, world.describeCert)
    ensures step.existing.Some? ==>
      arn == Ok(step.existing.value) && step == CertificateStep(step.existing, None, [], None)
    ensures step.requested.Some? ==>
      world.requestCert(CertRequestFor(settings.domain)) == Some(step.requested.value.certificateArn)
    ensures step.existing.None? && arn.Ok? ==>
      && step.requested.Some? && arn.value == step.requested.value.certificateArn
      && |step.validationBatches| == |step.requested.value.validationRecords| > 0
      && step.validationWait.Some? && step.validationWait.value.Issued?
    ensures arn.Err? ==> arn.error in {CertificateRequest, ValidationRecordSetup, CertificateWait}
    ensures arn.Err? <==> CertificateFailure(settings, zoneId, world).Some?
    ensures arn.Err? ==> arn.error == CertificateFailure(settings, zoneId, world).value
    ensures arn.Ok? ==> arn.value == CertificateArnOf(settings, world)
    ensures old(tmp.files) <= tmp.files <= old(tmp.files) + set n | n in TempFiles
  {
    var existing := FindExistingCertificate(DomainSet(settings.domain), world.certListing, world.describeCert);
    step := CertificateStep(existing, None, [], None);
    if existing.Some? {
      return Ok(existing.value), step;
    }
    var r, attempts := RequestSslCertificate(settings.domain, world.requestCert, world.pollRecords);
    if r.Err? {
      return Err(CertificateRequest), step;
    }
    assert r.value.validationRecords == RequestedRecords(world);
    var batches, ok := CreateValidationRecords(zoneId, r.value.validationRecords, world.upsertOk, world.existingValue);
    assert ok <==> RecordsSettled(zoneId, RequestedRecords(world), world);
    if batches != [] {
      tmp.Write(TempFiles[2]);
    }
    step := CertificateStep(existing, Some(r.value), batches, None);
    if !ok {
      return Err(ValidationRecordSetup), step;
    }
    var w := WaitForCertificateValidation(world.certStatus);
    step := CertificateStep(existing, Some(r.value), batches, Some(w));
    if !w.Issued? {
      return Err(CertificateWait), step;
    }
    arn := Ok(r.value.certificateArn);
  }

  /** Steps 4 to 6: the distribution, its alias records and the configuration update,
      then the cleanup of a complete run. */
  method FinishSetup(settings: Settings, zoneId: string, arn: string, world: SetupWorld, tmp: TempDir)
    returns (step: FinishStep, failed: Option<SetupStage>)
    modifies tmp
    ensures step.distribution.Some? ==>
      CreateCloudFrontDistribution(settings.bucketName, settings.domain, arn, settings.region, world.now,
                                   world.createDistribution) == Ok(step.distribution.value)
    ensures step.distribution.None? ==> failed == Some(DistributionSetup) && step.aliasBatches == []
    ensures failed.None? ==>
      && step.distribution.Some? && |step.aliasBatches| == |DomainSet(settings.domain)|
      && step.configUpdate == Some(UpdateConfigBranch(world.configContent, world.configWriteOk))
    ensures failed.Some? ==> step.configUpdate.None? && failed.value in {DistributionSetup, AliasRecordSetup}
    ensures var config := DistributionConfigFor(settings.bucketName, settings.domain, arn, settings.region, world.now);
      failed == Some(DistributionSetup) <==> world.createDistribution(config).None?
    ensures var config := DistributionConfigFor(settings.bucketName, settings.domain, arn, settings.region, world.now);
      failed == Some(AliasRecordSetup) <==>
        && world.createDistribution(config).Some?
        && !AliasesAccepted(zoneId, settings.domain, world.createDistribution(config).value.distributionDomain,
                            world.aliasReply)
    ensures failed == FinishFailure(settings, zoneId, arn, world)
    ensures failed.None? ==> tmp.files == old(tmp.files) - set n | n in TempFiles
    ensures failed.Some? ==> old(tmp.files) <= tmp.files
  {
    tmp.Write(TempFiles[3]);
    var created := CreateCloudFrontDistribution(settings.bucketName, settings.domain, arn,
                                                settings.region, world.now, world.createDistribution);
    if created.Err? {
      return FinishStep(None, [], None), Some(DistributionSetup);
    }
    var aliasBatches, ok := CreateDnsRecords(zoneId, settings.domain, created.value.distributionDomain, world.aliasReply);
    tmp.Write(TempFiles[4]);
    if !ok {
      return FinishStep(Some(created.value), aliasBatches, None), Some(AliasRecordSetup);
    }
    step := FinishStep(Some(created.value), aliasBatches, Some(UpdateConfigBranch(world.configContent, world.configWriteOk)));
    tmp.Cleanup();
    failed := None;
  }

  /** Steps 3 to 6, once the zone and the bucket are in place. */
  method CertifyAndServe(settings: Settings, zoneId: string, world: SetupWorld, tmp: TempDir)
    returns (outcome: SetupOutcome, certificate: CertificateStep, finish: Option<FinishStep>)
    modifies tmp
    ensures outcome.Failed? ==> outcome.stage !in {ConfigLoad, ConfigCheck, Prerequisites, HostedZoneSetup, BucketSetup}
    ensures outcome.Failed? <==> ServeFailure(settings, zoneId, world).Some?
    ensures outcome.Failed? ==> outcome.stage == ServeFailure(settings, zoneId, world).value
    ensures outcome.Completed? ==> outcome.certificateArn == CertificateArnOf(settings, world)
    ensures certificate.existing == ExistingCertificate(DomainSet(settings.domain), world.certListing, world.describeCert)
    ensures certificate.existing.Some? ==>
      certificate.requested.None? && certificate.validationBatches == [] && certificate.validationWait.None?
    ensures outcome.Completed? ==>
      && finish.Some? && finish.value.distribution.Some?
      && outcome.distributionId == finish.value.distribution.value.distributionId
      && |finish.value.aliasBatches| == |DomainSet(settings.domain)|
      && finish.value.configUpdate == Some(UpdateConfigBranch(world.configContent, world.configWriteOk))
    ensures outcome.Completed? && certificate.existing.Some? ==> outcome.certificateArn == certificate.existing.value
    ensures outcome.Completed? && certificate.existing.None? ==>
      && certificate.requested.Some? && outcome.certificateArn == certificate.requested.value.certificateArn
      && certificate.validationWait.Some? && certificate.validationWait.value.Issued?
    ensures outcome.Completed? ==> tmp.files == old(tmp.files) - set n | n in TempFiles
    ensures outcome.Failed? ==> old(tmp.files) <= tmp.files
  {
    var arn;
    arn, certificate := SetupCertificate(settings, zoneId, world, tmp);
    if arn.Err? {
      return Failed(arn.error), certificate, None;
    }
    var step, failed := FinishSetup(settings, zoneId, arn.value, world, tmp);
    finish := Some(step);
    if failed.Some? {
      return Failed(failed.value), certificate, finish;
    }
    outcome := Completed(arn.value, step.distribution.value.distributionId);
  }

  /** The steps after the configuration checks, for the settings of the run. */
  method SetupResources(settings: Settings, world: SetupWorld, tmp: TempDir)
    returns (outcome: SetupOutcome, report: SetupReport)
    modifies tmp
    ensures report.settings == Some(settings)
    ensures outcome.Failed? ==> outcome.stage !in {ConfigLoad, ConfigCheck, Prerequisites}
    ensures outcome.Failed? <==> ResourcesFailure(settings, world).Some?
    ensures outcome.Failed? ==> outcome.stage == ResourcesFailure(settings, world).value
    ensures report.zone.Some? ==> SetupHostedZone(settings.domain, world.listZones, world.createZone) == Ok(report.zone.value)
    ensures report.zone.None? ==> outcome == Failed(HostedZoneSetup) && report.bucketCalls == []
    ensures report.bucketCalls != [] ==> !world.bucketExists
    ensures |report.bucketCalls| <= 5
    ensures report.bucketCalls == BucketCalls(settings.bucketName, settings.region)[..|report.bucketCalls|]
    ensures report.certificate.Some? ==> report.zone.Some?
    ensures report.certificate.Some? ==>
      report.certificate.value.existing ==
        ExistingCertificate(DomainSet(settings.domain), world.certListing, world.describeCert)
    ensures report.certificate.Some? && report.certificate.value.existing.Some? ==>
      report.certificate.value.requested.None? && report.certificate.value.validationBatches == []
      && report.certificate.value.validationWait.None?
    ensures report.finish.Some? ==> report.certificate.Some?
    ensures outcome.Completed? ==>
      && report.certificate.Some? && report.finish.Some?
      && report.finish.value.distribution.Some?
      && outcome.distributionId == report.finish.value.distribution.value.distributionId
      && |report.finish.value.aliasBatches| == |DomainSet(settings.domain)|
      && report.finish.value.configUpdate == Some(UpdateConfigBranch(world.configContent, world.configWriteOk))
    ensures outcome.Completed? && report.certificate.value.existing.Some? ==>
      outcome.certificateArn == report.certificate.value.existing.value
    ensures outcome.Completed? && report.certificate.value.existing.None? ==>
      && report.certificate.value.requested.Some?
      && outcome.certificateArn == report.certificate.value.requested.value.certificateArn
      && report.certificate.value.validationWait.Some? && report.certificate.value.validationWait.value.Issued?
    ensures outcome.Completed? ==> tmp.files == old(tmp.files) - set n | n in TempFiles
    ensures outcome.Failed? ==> old(tmp.files) <= tmp.files
  {
    var zone, bucketCalls, bucketOk := SetupZoneAndBucket(settings, world, tmp);
    if zone.Err? {
      return Failed(HostedZoneSetup), SetupReport(Some(settings), None, [], None, None);
    }
    if !bucketOk {
      return Failed(BucketSetup), SetupReport(Some(settings), Some(zone.value), bucketCalls, None, None);
    }
    var certificate, finish;
    outcome, certificate, finish := CertifyAndServe(settings, zone.value.hostedZoneId, world, tmp);
    report := SetupReport(Some(settings), Some(zone.value), bucketCalls, Some(certificate), finish);
  }

  /** `setupInfrastructure`: the steps in order. Every failure ends the run through
      `process.exit(1)`, which skips the `finally` block, so the temporary files are
      removed only after a complete run. */
  method SetupInfrastructure(world: SetupWorld, tmp: TempDir) returns (outcome: SetupOutcome, report: SetupReport)
    modifies tmp
    ensures outcome == Failed(ConfigLoad) <==> world.config.None?
    ensures outcome == Failed(ConfigCheck) <==> world.config.Some? && ValidateSetupConfig(world.config.value).Err?
    ensures outcome == Failed(Prerequisites) <==>
      world.config.Some? && ValidateSetupConfig(world.config.value).Ok? && !(world.cliInstalled && world.credentialsValid)
    ensures outcome.Failed? <==> SetupFailure(world).Some?
    ensures outcome.Failed? ==> outcome.stage == SetupFailure(world).value
    ensures report.settings.Some? <==>
      world.config.Some? && ValidateSetupConfig(world.config.value).Ok? && world.cliInstalled && world.credentialsValid
    ensures report.settings.Some? ==> report.settings.value == SettingsOf(world.config.value.deploy.value)
    ensures report.settings.None? ==> report == NothingDone && outcome.Failed?
    ensures report.zone.Some? ==>
      SetupHostedZone(report.settings.value.domain, world.listZones, world.createZone) == Ok(report.zone.value)
    ensures report.bucketCalls != [] ==> report.zone.Some? && !world.bucketExists
    ensures |report.bucketCalls| <= 5
    ensures report.bucketCalls != [] ==>
      report.bucketCalls == BucketCalls(report.settings.value.bucketName, report.settings.value.region)[..|report.bucketCalls|]
    ensures report.certificate.Some? ==> report.zone.Some?
    ensures report.certificate.Some? ==>
      report.certificate.value.existing ==
        ExistingCertificate(DomainSet(report.settings.value.domain), world.certListing, world.describeCert)
    ensures report.certificate.Some? && report.certificate.value.existing.Some? ==>
      report.certificate.value.requested.None? && report.certificate.value.validationBatches == []
      && report.certificate.value.validationWait.None?
    ensures report.finish.Some? ==> report.certificate.Some?
    ensures outcome.Completed? ==>
      && report.certificate.Some? && report.finish.Some?
      && report.finish.value.distribution.Some?
      && outcome.distributionId == report.finish.value.distribution.value.distributionId
      && |report.finish.value.aliasBatches| == |DomainSet(report.settings.value.domain)|
      && report.finish.value.configUpdate == Some(UpdateConfigBranch(world.configContent, world.configWriteOk))
    ensures outcome.Completed? && report.certificate.value.existing.Some? ==>
      outcome.certificateArn == report.certificate.value.existing.value
    ensures outcome.Completed? && report.certificate.value.existing.None? ==>
      && report.certificate.value.requested.Some?
      && outcome.certificateArn == report.certificate.value.requested.value.certificateArn
      && report.certificate.value.validationWait.Some? && report.certificate.value.validationWait.value.Issued?
    ensures outcome.Completed? ==> tmp.files == old(tmp.files) - set n | n in TempFiles
    ensures outcome.Failed? ==> old(tmp.files) <= tmp.files
  {
    if world.config.None? {
      return Failed(ConfigLoad), NothingDone;
    }
    var validated := ValidateSetupConfig(world.config.value);
    if validated.Err? {
      return Failed(ConfigCheck), NothingDone;
    }
    if !world.cliInstalled || !world.credentialsValid {
      return Failed(Prerequisites), NothingDone;
    }
    outcome, report := SetupResources(SettingsOf(world.config.value.deploy.value), world, tmp);
  }
}
