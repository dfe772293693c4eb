/** The SDK-wide settings store of the OpenPayU PHP client: environment and
    endpoint URLs, legacy basic-auth credentials, OAuth credentials, API
    version, hash algorithm and sender name. The PHP class keeps these in
    static fields; here one object of class Configuration holds them. */
module OpenPayU {
  import opened Text

  datatype Option<T> = None | Some(value: T)

  /** What OpenPayU_Exception_Configuration reports, without its message text. */
  datatype ConfigurationError =
    | InvalidApiVersion
    | HashAlgorithmNotAvailable(algorithm: string)
    | InvalidEnvironment(environment: string)

  /** A setter either returns normally (Pass) or throws (Fail). */
  datatype Outcome = Pass | Fail(error: ConfigurationError)

  const AvailableEnvironments: seq<string> := ["custom", "secure"]
  const AvailableHashAlgorithms: seq<string> := ["SHA", "SHA-256", "SHA-384", "SHA-512"]
  const OauthContext: string := "pl/standard/user/oauth/authorize"

  /** PHP's empty() on a string value: true for "" and for "0". */
  predicate IsPhpEmpty(s: string): (b: bool)
    ensures b <==> |s| <= 1 && forall i :: 0 <= i < |s| ==> s[i] == '0'
  {
    s == "" || s == "0"
  }

  // -----------------------------------------------------------------------
  // Endpoint derivation of setEnvironment
  // -----------------------------------------------------------------------

  /** The domain as setEnvironment uses it: lower-cased, with a "/"
      appended whether or not it already ends in one. */
  function NormalizedDomain(domain: string): (d: string)
    ensures |d| == |domain| + 1 && d[|domain|] == '/'
  {
    assert (Lower(domain) + "/")[..|domain|] == Lower(domain);
    Lower(domain) + "/"
  }

  /** Lower-casing before or after appending "/" gives the same domain. */
  lemma NormalizedDomainOfLowerAppend(domain: string)
    ensures Lower(domain + "/") == NormalizedDomain(domain)
  {
    LowerAppend(domain, "/");
    LowerOfLowerCase("/");
  }

  /** The part shared by serviceUrl and oauthEndpoint for an accepted,
      already lower-cased environment name: "https://secure." before the
      domain for secure, nothing for custom. */
  function EndpointBase(env: string, domain: string): (b: string)
    ensures |b| > |domain| && b[|b| - 1] == '/'
    ensures env != "secure" ==> |b| == |domain| + 1
  {
    if env == "secure" then "https://" + env + "." + NormalizedDomain(domain) else NormalizedDomain(domain)
  }

  /** serviceUrl: the base, then the API path, then the version. */
  function ServiceUrl(env: string, domain: string, api: string, version: string): (u: string)
    ensures |u| == |EndpointBase(env, domain)| + |api| + |version|
    ensures EndpointBase(env, domain) <= u
  {
    EndpointBase(env, domain) + api + version
  }

  /** oauthEndpoint: the base, then OAUTH_CONTEXT. */
  function OauthEndpoint(env: string, domain: string): (u: string)
    ensures |u| > |OauthContext| && u[|u| - |OauthContext|..] == OauthContext
  {
    EndpointBase(env, domain) + OauthContext
  }

  /** setEnvironment accepts an environment name exactly when it equals
      "custom" or "secure" up to ASCII case. */
  lemma EnvironmentAcceptedIff(environment: string)
    ensures Lower(environment) in AvailableEnvironments
            <==> EqualsIgnoreCase(environment, "custom") || EqualsIgnoreCase(environment, "secure")
  {
    LowerOfLowerCase("custom");
    LowerOfLowerCase("secure");
    LowerEqualIff(environment, "custom");
    LowerEqualIff(environment, "secure");
  }

  /** The two branches of setEnvironment written out: only the secure branch
      puts a scheme in front, and only the domain is lower-cased. */
  lemma EndpointsPerEnvironment(domain: string, api: string, version: string)
    ensures var d := NormalizedDomain(domain);
            && ServiceUrl("secure", domain, api, version) == "https://secure." + d + api + version
            && OauthEndpoint("secure", domain) == "https://secure." + d + OauthContext
            && ServiceUrl("custom", domain, api, version) == d + api + version
            && OauthEndpoint("custom", domain) == d + OauthContext
  {
    assert "https://" + "secure" + "." == "https://secure.";
  }

  /** A domain without upper-case letters is used as given. */
  lemma SecureBaseOfLowerCaseDomain(domain: string)
    requires forall i :: 0 <= i < |domain| ==> !IsUpper(domain[i])
    ensures EndpointBase("secure", domain) == "https://secure." + domain + "/"
  {
    LowerOfLowerCase(domain);
  }

  /** The default arguments of setEnvironment give the production API address. */
  lemma DefaultServiceUrl()
    ensures ServiceUrl("secure", "payu.com", "api/", "v2_1/") == "https://secure.payu.com/api/v2_1/"
  {
    SecureBaseOfLowerCaseDomain("payu.com");
    assert "https://secure." + "payu.com" + "/" == "https://secure.payu.com/";
  }

  /** The default arguments of setEnvironment give the production OAuth address. */
  lemma DefaultOauthEndpoint()
    ensures OauthEndpoint("secure", "payu.com") == "https://secure.payu.com/" + OauthContext
  {
    SecureBaseOfLowerCaseDomain("payu.com");
  }

  /** The domain's case does not matter. */
  lemma EndpointsIgnoreDomainCase(env: string, d1: string, d2: string, api: string, version: string)
    requires EqualsIgnoreCase(d1, d2)
    ensures ServiceUrl(env, d1, api, version) == ServiceUrl(env, d2, api, version)
    ensures OauthEndpoint(env, d1) == OauthEndpoint(env, d2)
  {
    LowerEqualIff(d1, d2);
    assert EndpointBase(env, d1) == EndpointBase(env, d2);
  }

  /** api and version are appended verbatim, without lower-casing: the
      service URL ends with exactly api + version. */
  lemma ServiceUrlEndsWithApiVersion(env: string, domain: string, api: string, version: string)
    ensures var u := ServiceUrl(env, domain, api, version);
            |u| > |api + version| && u[|u| - |api + version|..] == api + version
  {
    var b := EndpointBase(env, domain);
    assert ServiceUrl(env, domain, api, version) == b + (api + version);
  }

  /** Every derived endpoint starts with its base, and the base ends with "/". */
  lemma EndpointsShareBase(env: string, domain: string, api: string, version: string)
    ensures var b := EndpointBase(env, domain);
            |b| > 0 && b[|b| - 1] == '/'
            && b <= ServiceUrl(env, domain, api, version)
            && OauthEndpoint(env, domain)[..|b|] == b
            && OauthEndpoint(env, domain)[|b|..] == OauthContext
  {
    var b := EndpointBase(env, domain);
    assert ServiceUrl(env, domain, api, version) == b + (api + version);
  }

  /** A custom domain that already ends in "/" yields "//" before the API path:
      the slash is appended unconditionally. */
  lemma CustomDomainDoubleSlash(domain: string, api: string, version: string)
    requires |domain| > 0 && domain[|domain| - 1] == '/'
    ensures ServiceUrl("custom", domain, api, version)[|domain| - 1..|domain| + 1] == "//"
  {
    var b := EndpointBase("custom", domain);
    var u := ServiceUrl("custom", domain, api, version);
    assert b == Lower(domain) + "/";
    assert b[|domain| - 1] == Lower(domain)[|domain| - 1] == '/';
    assert u[|domain| - 1] == b[|domain| - 1] && u[|domain|] == b[|domain|];
    var w := u[|domain| - 1..|domain| + 1];
    assert |w| == 2 && w[0] == '/' && w[1] == '/';
  }

  /** What setEnvironment stores satisfies EndpointsConsistent. */
  lemma DerivedEndpointsConsistent(env: string, domain: string, api: string, version: string, serviceDomain: string)
    requires env == "secure" ==> serviceDomain == NormalizedDomain(domain)
    ensures EndpointsConsistent(env, serviceDomain, ServiceUrl(env, domain, api, version), OauthEndpoint(env, domain))
  {
    EndpointsShareBase(env, domain, api, version);
    var o := OauthEndpoint(env, domain);
    var n := |o| - |OauthContext|;
    assert o[..n] == EndpointBase(env, domain);
  }

  // -----------------------------------------------------------------------
  // Sender name
  // -----------------------------------------------------------------------

  /** Index of the last '@' in s, or -1 when there is none. */
  function LastAt(s: string): (k: int)
    ensures -1 <= k < |s|
    ensures k >= 0 ==> s[k] == '@'
    ensures forall j :: k < j < |s| ==> s[j] != '@'
  {
    if s == [] then -1 else if s[|s| - 1] == '@' then |s| - 1 else LastAt(s[..|s| - 1])
  }

  /** Splits a full sender name "<sender>@<sdkVersion>" at its last '@'. */
  function SplitSenderName(s: string): Option<(string, string)> {
    var k := LastAt(s);
    if k < 0 then None else Some((s[..k], s[k + 1..]))
  }

  /** The sender and the SDK version can be read back from the full sender
      name whenever the version contains no '@' (the sender may). */
  lemma SplitFullSenderName(sender: string, sdkVersion: string)
    requires '@' !in sdkVersion
    ensures SplitSenderName(sender + "@" + sdkVersion) == Some((sender, sdkVersion))
  {
    var s := sender + "@" + sdkVersion;
    var k := LastAt(s);
    assert s[|sender|] == '@';
    assert forall j :: |sender| < j < |s| ==> s[j] == sdkVersion[j - |sender| - 1];
    assert k == |sender|;
    assert s[..k] == sender && s[k + 1..] == sdkVersion;
  }

  // -----------------------------------------------------------------------
  // The store
  // -----------------------------------------------------------------------

  /** All fields of the store at once, to say what a setter leaves alone. */
  datatype Settings = Settings(
    env: string,
    merchantPosId: string,
    signatureKey: string,
    oauthClientId: string,
    oauthClientSecret: string,
    oauthEndpoint: string,
    serviceUrl: string,
    serviceDomain: string,
    apiVersion: string,
    hashAlgorithm: string,
    sender: string)

  /** serviceUrl and oauthEndpoint are either both still unset, or were derived
      together from one base ending in "/" (for secure, the one built from
      serviceDomain). */
  ghost predicate EndpointsConsistent(env: string, serviceDomain: string, serviceUrl: string, oauthEndpoint: string) {
    (serviceUrl == "" && oauthEndpoint == "")
    || (var n := |oauthEndpoint| - |OauthContext|;
        n > 0 && oauthEndpoint[n..] == OauthContext && oauthEndpoint[n - 1] == '/'
        && oauthEndpoint[..n] <= serviceUrl
        && (env == "secure" ==> oauthEndpoint[..n] == "https://secure." + serviceDomain))
  }

  class Configuration {
    var env: string
    var merchantPosId: string
    var signatureKey: string
    var oauthClientId: string
    var oauthClientSecret: string
    var oauthEndpoint: string
    var serviceUrl: string
    var serviceDomain: string
    var apiVersion: string
    var hashAlgorithm: string
    var sender: string

    ghost function State(): Settings
      reads this
    {
      Settings(env, merchantPosId, signatureKey, oauthClientId, oauthClientSecret,
               oauthEndpoint, serviceUrl, serviceDomain, apiVersion, hashAlgorithm, sender)
    }

    /** What every setter preserves. */
    ghost predicate Valid()
      reads this
    {
      env in AvailableEnvironments
      && hashAlgorithm in AvailableHashAlgorithms
      && !IsPhpEmpty(apiVersion)
      && IsTrimmed(merchantPosId) && IsTrimmed(signatureKey)
      && EndpointsConsistent(env, serviceDomain, serviceUrl, oauthEndpoint)
    }

    /** The static initialisers. */
    constructor ()
      ensures Valid()
      ensures State() == Settings("secure", "", "", "", "", "", "", "", "2.1", "SHA-256", "Generic")
    {
      env := "secure";
      merchantPosId := "";
      signatureKey := "";
      oauthClientId := "";
      oauthClientSecret := "";
      oauthEndpoint := "";
      serviceUrl := "";
      serviceDomain := "";
      apiVersion := "2.1";
      hashAlgorithm := "SHA-256";
      sender := "Generic";
    }

    method SetApiVersion(version: string) returns (o: Outcome)
      requires Valid()
      modifies this
      ensures Valid()
      ensures o.Pass? <==> !IsPhpEmpty(version)
      ensures o.Fail? ==> o.error == InvalidApiVersion && State() == old(State())
      ensures o.Pass? ==> State() == old(State()).(apiVersion := version)
    {
      if IsPhpEmpty(version) {
        return Fail(InvalidApiVersion);
      }
      apiVersion := version;
      o := Pass;
    }

    function GetApiVersion(): (v: string)
      reads this
      ensures Valid() ==> !IsPhpEmpty(v)
    {
      apiVersion
    }

    method SetHashAlgorithm(value: string) returns (o: Outcome)
      requires Valid()
      modifies this
      ensures Valid()
      ensures o.Pass? <==> value in AvailableHashAlgorithms
      ensures o.Fail? ==> o.error == HashAlgorithmNotAvailable(value) && State() == old(State())
      ensures o.Pass? ==> State() == old(State()).(hashAlgorithm := value)
    {
      if value !in AvailableHashAlgorithms {
        return Fail(HashAlgorithmNotAvailable(value));
      }
      hashAlgorithm := value;
      o := Pass;
    }

    function GetHashAlgorithm(): (a: string)
      reads this
      ensures Valid() ==> a == "SHA" || a == "SHA-256" || a == "SHA-384" || a == "SHA-512"
    {
      hashAlgorithm
    }

    method SetEnvironment(environment: string := "secure", domain: string := "payu.com",
                          api: string := "api/", version: string := "v2_1/")
      returns (o: Outcome)
      requires Valid()
      modifies this
      ensures Valid()
      ensures o.Pass? <==> Lower(environment) in AvailableEnvironments
      ensures o.Fail? ==> o.error == InvalidEnvironment(Lower(environment)) && unchanged(this)
      ensures o.Pass? ==> env == Lower(environment)
      ensures o.Pass? ==> serviceDomain == if env == "secure" then NormalizedDomain(domain) else old(serviceDomain)
      ensures o.Pass? ==> serviceUrl == ServiceUrl(env, domain, api, version)
      ensures o.Pass? ==> oauthEndpoint == OauthEndpoint(env, domain)
      ensures merchantPosId == old(merchantPosId) && signatureKey == old(signatureKey)
      ensures oauthClientId == old(oauthClientId) && oauthClientSecret == old(oauthClientSecret)
      ensures apiVersion == old(apiVersion) && hashAlgorithm == old(hashAlgorithm) && sender == old(sender)
    {
      var name := Lower(environment);
      var d := NormalizedDomain(domain);

      if name !in AvailableEnvironments {
        return Fail(InvalidEnvironment(name));
      }

      if name == "secure" {
        env := name;
        serviceDomain := d;
        serviceUrl := "https://" + name + "." + d + api + version;
        oauthEndpoint := "https://" + name + "." + d + OauthContext;
      } else if name == "custom" {
        env := name;
        serviceUrl := d + api + version;
        oauthEndpoint := d + OauthContext;
      }
      DerivedEndpointsConsistent(env, domain, api, version, serviceDomain);
      o := Pass;
    }

    /** Empty until setEnvironment has run once; afterwards it shares its
        prefix with the OAuth endpoint. */
    function GetServiceUrl(): (u: string)
      reads this
      ensures Valid() ==> (u == "" <==> oauthEndpoint == "")
    {
      serviceUrl
    }

    function GetOauthEndpoint(): (u: string)
      reads this
      ensures Valid() && u != "" ==>
                |u| > |OauthContext| && u[|u| - |OauthContext|..] == OauthContext
    {
      oauthEndpoint
    }

    function GetEnvironment(): (e: string)
      reads this
      ensures Valid() ==> e == "custom" || e == "secure"
    {
      env
    }

    method SetMerchantPosId(value: string)
      requires Valid()
      modifies this
      ensures Valid()
      ensures State() == old(State()).(merchantPosId := Trim(value))
    {
      merchantPosId := Trim(value);
    }

    /** Never starts or ends with a trim character. */
    function GetMerchantPosId(): (id: string)
      reads this
      ensures Valid() ==> IsTrimmed(id)
    {
      merchantPosId
    }

    method SetSignatureKey(value: string)
      requires Valid()
      modifies this
      ensures Valid()
      ensures State() == old(State()).(signatureKey := Trim(value))
    {
      signatureKey := Trim(value);
    }

    /** Never starts or ends with a trim character. */
    function GetSignatureKey(): (key: string)
      reads this
      ensures Valid() ==> IsTrimmed(key)
    {
      signatureKey
    }

    function GetOauthClientId(): string
      reads this
    {
      oauthClientId
    }

    function GetOauthClientSecret(): string
      reads this
    {
      oauthClientSecret
    }

    method SetOauthClientId(value: string)
      requires Valid()
      modifies this
      ensures Valid()
      ensures State() == old(State()).(oauthClientId := value)
    {
      oauthClientId := value;
    }

    method SetOauthClientSecret(value: string)
      requires Valid()
      modifies this
      ensures Valid()
      ensures State() == old(State()).(oauthClientSecret := value)
    {
      oauthClientSecret := value;
    }

    method SetSender(value: string)
      requires Valid()
      modifies this
      ensures Valid()
      ensures State() == old(State()).(sender := value)
    {
      sender := value;
    }

    function GetSender(): string
      reads this
    {
      sender
    }

    /** "<sender>@<sdkVersion>"; the SDK version is what getSdkVersion would
        report, passed in because finding it reads a file. */
    function GetFullSenderName(sdkVersion: string): (name: string)
      reads this
      ensures |name| == |sender| + 1 + |sdkVersion|
      ensures name[..|sender|] == sender && name[|sender|] == '@' && name[|sender| + 1..] == sdkVersion
    {
      sender + "@" + sdkVersion
    }
  }
}
