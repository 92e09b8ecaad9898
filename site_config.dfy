/** The `deploy` section of `rswf.config.js`, as both deploy scripts read it.
    A field that the file may leave out is an `Option`; JavaScript's falsy
    values of a string field (`undefined`, `null`, `''`) are `None` or `Some("")`. */
module SiteConfig {
  import opened Strings

  datatype AwsSection = AwsSection(
    profile: Option<string>,
    accessKeyId: Option<string>,
    secretAccessKey: Option<string>)

  datatype CloudFrontSection = CloudFrontSection(
    distributionId: Option<string>,
    /** `true`, `false`, or left out (`None`) */
    autoInvalidate: Option<bool>,
    invalidatePaths: Option<seq<string>>)

  datatype DeployOptions = DeployOptions(
    /** the `cacheControl` object: MIME key (or `default` or the image wildcard) to directive */
    cacheControl: Option<map<string, string>>)

  datatype DeploySection = DeploySection(
    domain: Option<string>,
    bucketName: Option<string>,
    region: Option<string>,
    aws: Option<AwsSection>,
    cloudfront: Option<CloudFrontSection>,
    options: Option<DeployOptions>)

  datatype Config = Config(deploy: Option<DeploySection>)

  /** `config.deploy.aws?.profile` */
  function Profile(d: DeploySection): (p: Option<string>)
    ensures d.aws.None? ==> p.None?
    ensures d.aws.Some? ==> p == d.aws.value.profile
  {
    if d.aws.Some? then d.aws.value.profile else None
  }

  /** The configuration file shipped with the template. */
  const Shipped: Config :=
    Config(Some(DeploySection(
      Some("example.com"),
      Some("example.com"),
      Some("us-east-1"),
      Some(AwsSection(Some("default"), None, None)),
      Some(CloudFrontSection(None, Some(true), None)),
      Some(DeployOptions(Some(map[
        "text/html" := "no-cache, no-store, must-revalidate",
        "text/css" := "public, max-age=31536000, immutable",
        "application/javascript" := "public, max-age=31536000, immutable",
        "image/*" := "public, max-age=2592000",
        "default" := "public, max-age=86400"]))))))
}
