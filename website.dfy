/**
 * Static-website hosting of a bucket (bucket/website.py): the website
 * endpoint URL and the configuration request.
 *
 * The service's answers are parameters (`Outcome`); what the code sends is
 * part of the result.
 */
module Website {
  import opened Wrappers

  // ---------------------------------------------------------------------
  // Endpoint URL
  // ---------------------------------------------------------------------

  /** The one region whose endpoint joins "s3-website" and the region with '-' rather than '.'. */
  const UsEast1 := "us-east-1"

  const Scheme := "http://"
  const WebsiteLabel := ".s3-website"
  const DomainSuffix := ".amazonaws.com"

  /** Where the separator before the region sits in the URL of a bucket. */
  function SeparatorIndex(bucket: string): nat
  {
    |Scheme| + |bucket| + |WebsiteLabel|
  }

  /**
   * The website endpoint of `bucket` in `region`. The URL starts with the
   * scheme and the bucket and ends with the domain; the two forms differ
   * only in the one character before the region.
   */
  function WebsiteUrl(bucket: string, region: string): (url: string)
    ensures |url| == SeparatorIndex(bucket) + 1 + |region| + |DomainSuffix|
    ensures url[..SeparatorIndex(bucket)] == Scheme + bucket + WebsiteLabel
    ensures url[SeparatorIndex(bucket)] == (if region == UsEast1 then '-' else '.')
    ensures url[SeparatorIndex(bucket) + 1..] == region + DomainSuffix
  {
    if region == UsEast1 then
      "http://" + bucket + ".s3-website-" + region + ".amazonaws.com"
    else
      "http://" + bucket + ".s3-website." + region + ".amazonaws.com"
  }

  /** Every endpoint URL starts with the scheme and the bucket name and ends with the domain. */
  lemma WebsiteUrlFrame(bucket: string, region: string)
    ensures Scheme + bucket <= WebsiteUrl(bucket, region)
    ensures var url := WebsiteUrl(bucket, region);
            |url| >= |DomainSuffix| && url[|url| - |DomainSuffix|..] == DomainSuffix
  {
    var url := WebsiteUrl(bucket, region);
    var k := SeparatorIndex(bucket);
    assert url[..|Scheme| + |bucket|] == url[..k][..|Scheme| + |bucket|];
    assert url[|url| - |DomainSuffix|..] == url[k + 1..][|region|..];
  }

  /** The region named in an endpoint URL of a known bucket. */
  function RegionOf(bucket: string, url: string): Option<string>
  {
    var k := SeparatorIndex(bucket);
    if |url| >= k + 1 + |DomainSuffix| then Some(url[k + 1..|url| - |DomainSuffix|]) else None
  }

  /** The region can be read back from the endpoint URL. */
  lemma RegionOfWebsiteUrl(bucket: string, region: string)
    ensures RegionOf(bucket, WebsiteUrl(bucket, region)) == Some(region)
  {
    var url := WebsiteUrl(bucket, region);
    var k := SeparatorIndex(bucket);
    assert url[k + 1..|url| - |DomainSuffix|] == url[k + 1..][..|region|];
  }

  /** Two regions share an endpoint URL for a bucket only when they are the same region. */
  lemma WebsiteUrlInjective(bucket: string, r1: string, r2: string)
    ensures WebsiteUrl(bucket, r1) == WebsiteUrl(bucket, r2) ==> r1 == r2
  {
    RegionOfWebsiteUrl(bucket, r1);
    RegionOfWebsiteUrl(bucket, r2);
  }

  // ---------------------------------------------------------------------
  // Website configuration
  // ---------------------------------------------------------------------

  const DefaultIndexDocument := "index.html"
  const DefaultErrorDocument := "error.html"

  /** The error document's key and the suffix served for a directory request. */
  datatype WebsiteConfiguration = WebsiteConfiguration(errorDocumentKey: string, indexDocumentSuffix: string)

  datatype Request =
    | DeletePublicAccessBlock(bucket: string)
    | PutBucketWebsite(bucket: string, config: WebsiteConfiguration)

  /**
   * Configure the bucket as a website. `unblock` is the service's answer to
   * removing the public-access block, sent first and outside the error
   * handler, so its failure propagates and nothing else is sent; `put` is
   * the answer to the configuration request, whose failure gives false.
   */
  function ConfigureWebsite(bucket: string, indexDoc: string, errorDoc: string,
                            unblock: Outcome<()>, put: Outcome<()>): (r: Run<Request, bool>)
    ensures 1 <= |r.requests| <= 2 && r.requests[0] == DeletePublicAccessBlock(bucket)
    ensures r.result.Raised? <==> unblock.Raised?
    ensures unblock.Raised? ==> |r.requests| == 1
    ensures unblock.Returned? ==>
              && r.requests[1..] == [PutBucketWebsite(bucket, WebsiteConfiguration(errorDoc, indexDoc))]
              && (r.result.value <==> put.Returned?)
  {
    var unblocked := DeletePublicAccessBlock(bucket);
    match unblock
    case Raised => Run([unblocked], Raised)
    case Returned(_) =>
      var config := WebsiteConfiguration(errorDoc, indexDoc);
      Run([unblocked, PutBucketWebsite(bucket, config)], Returned(put.Returned?))
  }

  /** The call with no documents named: index document "index.html", error document "error.html". */
  function ConfigureDefaultWebsite(bucket: string, unblock: Outcome<()>, put: Outcome<()>): (r: Run<Request, bool>)
    ensures unblock.Returned? ==>
              r.requests == [DeletePublicAccessBlock(bucket),
                             PutBucketWebsite(bucket, WebsiteConfiguration("error.html", "index.html"))]
  {
    ConfigureWebsite(bucket, DefaultIndexDocument, DefaultErrorDocument, unblock, put)
  }
}
