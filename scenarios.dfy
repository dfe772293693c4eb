/** A caller's view of the store: what the class contracts alone let one
    conclude about sequences of setter calls. */
module Scenarios {
  import opened Text
  import opened OpenPayU

  /** setEnvironment with its default arguments targets production. */
  method DefaultEnvironment() returns (env: string, serviceUrl: string, oauthEndpoint: string)
    ensures env == "secure"
    ensures serviceUrl == "https://secure.payu.com/api/v2_1/"
    ensures oauthEndpoint == "https://secure.payu.com/" + OauthContext
  {
    var c := new Configuration();
    LowerOfLowerCase("secure");
    var o := c.SetEnvironment();
    DefaultServiceUrl();
    DefaultOauthEndpoint();
    env, serviceUrl, oauthEndpoint := c.GetEnvironment(), c.GetServiceUrl(), c.GetOauthEndpoint();
  }

  /** Hash algorithm names are compared case-sensitively. */
  method LowerCaseHashAlgorithmRejected() returns (o: Outcome, hash: string)
    ensures o.Fail? && hash == "SHA-256"
  {
    var c := new Configuration();
    assert "sha-256" != "SHA-256" && "sha-256" != "SHA" && "sha-256" != "SHA-384" && "sha-256" != "SHA-512";
    o := c.SetHashAlgorithm("sha-256");
    hash := c.GetHashAlgorithm();
  }

  /** "0" is empty in PHP's sense, so it is not accepted as an API version. */
  method ZeroApiVersionRejected() returns (o: Outcome, version: string)
    ensures o.Fail? && version == "2.1"
  {
    var c := new Configuration();
    o := c.SetApiVersion("0");
    version := c.GetApiVersion();
  }

  /** An unknown environment is rejected and changes nothing. */
  method UnknownEnvironmentRejected() returns (o: Outcome, env: string, serviceUrl: string)
    ensures o.Fail? && env == "secure" && serviceUrl == ""
  {
    var c := new Configuration();
    LowerOfLowerCase("bogus");
    assert "bogus" != "custom" && "bogus" != "secure";
    o := c.SetEnvironment("bogus");
    env, serviceUrl := c.GetEnvironment(), c.GetServiceUrl();
  }

  /** The environment name is matched without regard to case and stored lower-cased. */
  method UpperCaseEnvironmentAccepted() returns (o: Outcome, env: string)
    ensures o.Pass? && env == "secure"
  {
    var c := new Configuration();
    assert Lower("SECURE") == "secure";
    o := c.SetEnvironment("SECURE");
    env := c.GetEnvironment();
  }

  /** Surrounding white space is dropped from a merchant POS id. */
  method TrimmedMerchantPosId() returns (id: string)
    ensures id == "abc"
  {
    var c := new Configuration();
    var raw := "  abc  ";
    assert raw[..2] == "  " && raw[5..] == "  " && raw[2..5] == "abc";
    TrimUnique(raw, 2, 5);
    c.SetMerchantPosId(raw);
    id := c.GetMerchantPosId();
  }
}
