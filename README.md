# OpenPayU configuration store in Dafny

This project models `OpenPayU_Configuration`, the settings registry of the
OpenPayU PHP SDK (`lib/OpenPayU/Configuration.php`). The store holds the
following settings:

- the target environment (`custom` or `secure`) and the endpoint URLs derived from it;
- the legacy basic-auth pair (merchant POS id, signature key);
- the OAuth client id and secret;
- the API version;
- the hash algorithm used for signing;
- the sender name reported to the gateway.

The PHP class keeps all of this in static fields. The model keeps it in one
object of class `OpenPayU.Configuration`, with one field per static field.

Files:

- `text.dfy`, module `Text`: the two PHP string built-ins the store relies on.
  - `strtolower`, as ASCII lower-casing (`AsciiLower`, `Lower`).
  - `trim` with its default character list: space, `\t`, `\n`, `\r`, `\0` and `\x0B` (`TrimLeft`, `TrimRight`, `Trim`).
  - Lemmas about both, e.g. that equal lower-casing means equal up to case, that trim is idempotent, and that trim's result is determined by its contract.
- `configuration.dfy`, module `OpenPayU`:
  - The error datatype. `Outcome` stands for "returned normally" or "threw `OpenPayU_Exception_Configuration`".
  - The URL derivation of `setEnvironment` as pure functions (`NormalizedDomain`, `EndpointBase`, `ServiceUrl`, `OauthEndpoint`), with lemmas about them.
  - The class itself. Its setters are methods with `modifies this`. Each says exactly what the new state is: a `Settings` snapshot of all fields, or an equation per field. Each keeps the class invariant `Valid()`.
  - `Valid()` says four things:
    - the environment is `custom` or `secure`;
    - the hash algorithm is one of the four allowed names;
    - the API version is not PHP-empty;
    - both trimmed credentials have no trim character at either end.
  - `Valid()` also says that `serviceUrl` and `oauthEndpoint` are either both still unset or were derived together from one base. For `secure`, that base is built from `serviceDomain`.
  - Getters are functions that read the object.
- `scenarios.dfy`, module `Scenarios`: client methods. Each starts from a fresh store and calls the setters. Its conclusions follow from the class contracts alone: the defaults of `setEnvironment`, rejected values, an upper-case environment name and a padded merchant POS id.

Three facts about the code show up in the contracts:

- `setApiVersion` rejects `"0"` as well as `""`, because PHP's `empty("0")` is true (lib/OpenPayU/Configuration.php:63).
- `setEnvironment` always appends `/` to the lower-cased domain (lib/OpenPayU/Configuration.php:109). A `custom` domain such as `https://my.host/` therefore gives `https://my.host//api/v2_1/` (`CustomDomainDoubleSlash`).
- The only environments are `custom` and `secure` (lib/OpenPayU/Configuration.php:14).

## Model

| member | source | states |
|---|---|---|
| Text.AsciiLower | lib/OpenPayU/Configuration.php:108-109 | strtolower on one character: A-Z move up by 32 to a-z, nothing else changes, and the result is never an upper-case letter |
| Text.Lower | lib/OpenPayU/Configuration.php:108-109 | strtolower keeps the length and lower-cases each character independently |
| Text.LowerEqualIff | lib/OpenPayU/Configuration.php:108-113 | two strings lower-case to the same string exactly when they are equal up to ASCII case (both directions) |
| Text.LowerOfLowerCase | lib/OpenPayU/Configuration.php:108-109 | a string without upper-case letters is returned unchanged by strtolower |
| Text.LowerIdempotent | lib/OpenPayU/Configuration.php:108-109 | lower-casing twice is lower-casing once |
| Text.LowerAppend | lib/OpenPayU/Configuration.php:109 | lower-casing distributes over concatenation |
| Text.IsTrimChar | lib/OpenPayU/Configuration.php:157 | trim's default character list: space, tab, line feed, carriage return, NUL and vertical tab (a definition, no contract of its own) |
| Text.TrimLeft | lib/OpenPayU/Configuration.php:157 | the left half of trim returns a suffix of the input that does not start with a trim character |
| Text.TrimRight | lib/OpenPayU/Configuration.php:157 | the right half of trim returns a prefix of the input that does not end with a trim character |
| Text.TrimLeftCut | lib/OpenPayU/Configuration.php:157 | what the left half of trim removes consists of trim characters only |
| Text.TrimRightCut | lib/OpenPayU/Configuration.php:157 | what the right half of trim removes consists of trim characters only |
| Text.TrimPieces | lib/OpenPayU/Configuration.php:157 | trimming both ends leaves a contiguous piece of the input, with only trim characters around it and none at its ends |
| Text.Trim | lib/OpenPayU/Configuration.php:155-158 | trim's result is no longer than its input and neither starts nor ends with a trim character |
| Text.TrimIsPiece | lib/OpenPayU/Configuration.php:155-158 | trim's result is a contiguous substring s[i..j] of its input, and everything before i and from j on is a trim character |
| Text.TrimLeftAt | lib/OpenPayU/Configuration.php:157 | the left half of trim stops exactly at the first character that is not a trim character |
| Text.TrimRightAt | lib/OpenPayU/Configuration.php:157 | the right half of trim stops exactly after the last character that is not a trim character |
| Text.TrimRightOfDrop | lib/OpenPayU/Configuration.php:157 | the right half of trim stops at the same place on a suffix of the input as on the input |
| Text.TrimBothAt | lib/OpenPayU/Configuration.php:157 | a non-empty trimmed piece with only trim characters around it is what both halves of trim leave |
| Text.TrimAllTrimChars | lib/OpenPayU/Configuration.php:157 | a string made only of trim characters trims to the empty string |
| Text.TrimUnique | lib/OpenPayU/Configuration.php:155-158 | the contract of trim determines its result: any piece s[i..j] with only trim characters outside it and none at its ends is trim(s) |
| Text.TrimOfTrimmed | lib/OpenPayU/Configuration.php:155-158 | a string that neither starts nor ends with a trim character is returned unchanged by trim |
| Text.TrimIdempotent | lib/OpenPayU/Configuration.php:155-158 | trimming the stored value again returns it unchanged |
| OpenPayU.IsPhpEmpty | lib/OpenPayU/Configuration.php:63 | PHP's empty() on a string holds exactly for strings of at most one character, all of them '0' (that is, "" and "0") |
| OpenPayU.NormalizedDomain | lib/OpenPayU/Configuration.php:109 | the domain as setEnvironment uses it is one character longer than the argument and ends with '/', whatever the argument ends with |
| OpenPayU.NormalizedDomainOfLowerAppend | lib/OpenPayU/Configuration.php:109 | lower-casing the domain before appending "/" gives the same string as lower-casing after appending it |
| OpenPayU.EndpointBase | lib/OpenPayU/Configuration.php:115-123 | the base shared by both URLs is longer than the domain and ends with '/'; for custom it is exactly one character longer, with no scheme in front |
| OpenPayU.ServiceUrl | lib/OpenPayU/Configuration.php:118-122 | the service URL starts with the base, and its length is the base's plus the API path's plus the version's |
| OpenPayU.OauthEndpoint | lib/OpenPayU/Configuration.php:119-123 | the OAuth endpoint ends with OAUTH_CONTEXT and is longer than it |
| OpenPayU.EnvironmentAcceptedIff | lib/OpenPayU/Configuration.php:108-113 | setEnvironment accepts an environment name exactly when it equals "custom" or "secure" up to ASCII case |
| OpenPayU.EndpointsPerEnvironment | lib/OpenPayU/Configuration.php:115-124 | the two branches written out, with d = lower(domain) + "/": secure gives "https://secure." + d + api + version and "https://secure." + d + OAUTH_CONTEXT; custom gives d + api + version and d + OAUTH_CONTEXT, with no scheme |
| OpenPayU.SecureBaseOfLowerCaseDomain | lib/OpenPayU/Configuration.php:109-119 | a domain without upper-case letters appears verbatim after "https://secure." and before the appended "/" |
| OpenPayU.DefaultServiceUrl | lib/OpenPayU/Configuration.php:106-118 | the default arguments give the service URL "https://secure.payu.com/api/v2_1/" |
| OpenPayU.DefaultOauthEndpoint | lib/OpenPayU/Configuration.php:55-119 | the default arguments give the OAuth endpoint "https://secure.payu.com/" followed by OAUTH_CONTEXT |
| OpenPayU.EndpointsIgnoreDomainCase | lib/OpenPayU/Configuration.php:109-123 | domains equal up to case give identical service URLs and OAuth endpoints |
| OpenPayU.ServiceUrlEndsWithApiVersion | lib/OpenPayU/Configuration.php:118-122 | api and version are not lower-cased: the service URL ends with exactly api + version |
| OpenPayU.EndpointsShareBase | lib/OpenPayU/Configuration.php:115-123 | both endpoints start with the same base, which ends in "/", and the OAuth endpoint is that base followed by OAUTH_CONTEXT |
| OpenPayU.CustomDomainDoubleSlash | lib/OpenPayU/Configuration.php:109-122 | a custom domain that already ends in "/" puts "//" into the service URL |
| OpenPayU.DerivedEndpointsConsistent | lib/OpenPayU/Configuration.php:115-124 | the values either branch stores satisfy the invariant that both endpoints come from one base (the one built from serviceDomain for secure) |
| OpenPayU.SplitFullSenderName | lib/OpenPayU/Configuration.php:239-242 | splitting "sender@version" at its last '@' gives back the sender and the version whenever the version has no '@' |
| OpenPayU.Configuration.constructor | lib/OpenPayU/Configuration.php:14-51 | initial state: env "secure", apiVersion "2.1", hashAlgorithm "SHA-256", sender "Generic", every other string ""; the invariant holds |
| OpenPayU.Configuration.SetApiVersion | lib/OpenPayU/Configuration.php:61-68 | fails exactly when the version is PHP-empty ("" or "0"), leaving every field as it was; otherwise stores the version and changes nothing else |
| OpenPayU.Configuration.GetApiVersion | lib/OpenPayU/Configuration.php:73-76 | the API version read back is never PHP-empty |
| OpenPayU.Configuration.SetHashAlgorithm | lib/OpenPayU/Configuration.php:82-89 | succeeds exactly when the name is one of SHA, SHA-256, SHA-384, SHA-512 (case-sensitive); a failure changes nothing, a success changes only the algorithm |
| OpenPayU.Configuration.GetHashAlgorithm | lib/OpenPayU/Configuration.php:94-97 | the algorithm read back is one of the four allowed names |
| OpenPayU.Configuration.SetEnvironment | lib/OpenPayU/Configuration.php:106-125 | accepted exactly when the lower-cased name is custom or secure; a rejection changes no field; an acceptance stores the lower-cased name and both derived URLs, sets serviceDomain only for secure, and leaves the credentials, API version, hash algorithm and sender alone |
| OpenPayU.Configuration.GetServiceUrl | lib/OpenPayU/Configuration.php:130-133 | the service URL is unset exactly when the OAuth endpoint is unset |
| OpenPayU.Configuration.GetOauthEndpoint | lib/OpenPayU/Configuration.php:138-141 | once set, the OAuth endpoint ends with OAUTH_CONTEXT |
| OpenPayU.Configuration.GetEnvironment | lib/OpenPayU/Configuration.php:146-149 | the environment read back is custom or secure |
| OpenPayU.Configuration.SetMerchantPosId | lib/OpenPayU/Configuration.php:155-158 | stores trim(value) and changes nothing else |
| OpenPayU.Configuration.GetMerchantPosId | lib/OpenPayU/Configuration.php:164-167 | the merchant POS id read back neither starts nor ends with a trim character |
| OpenPayU.Configuration.SetSignatureKey | lib/OpenPayU/Configuration.php:173-176 | stores trim(value) and changes nothing else |
| OpenPayU.Configuration.GetSignatureKey | lib/OpenPayU/Configuration.php:182-185 | the signature key read back neither starts nor ends with a trim character |
| OpenPayU.Configuration.SetOauthClientId | lib/OpenPayU/Configuration.php:206-209 | stores the value unchanged and changes nothing else |
| OpenPayU.Configuration.SetOauthClientSecret | lib/OpenPayU/Configuration.php:214-217 | stores the value unchanged and changes nothing else |
| OpenPayU.Configuration.SetSender | lib/OpenPayU/Configuration.php:223-226 | stores the value unchanged and changes nothing else |
| OpenPayU.Configuration.GetFullSenderName | lib/OpenPayU/Configuration.php:239-242 | the full name is the sender, then '@', then the SDK version (its round trip is SplitFullSenderName) |
| Scenarios.DefaultEnvironment | lib/OpenPayU/Configuration.php:106-119 | on a fresh store, setEnvironment() with its defaults yields env "secure", service URL "https://secure.payu.com/api/v2_1/" and OAuth endpoint "https://secure.payu.com/" + OAUTH_CONTEXT |
| Scenarios.LowerCaseHashAlgorithmRejected | lib/OpenPayU/Configuration.php:82-89 | "sha-256" is rejected and the algorithm stays "SHA-256" |
| Scenarios.ZeroApiVersionRejected | lib/OpenPayU/Configuration.php:61-68 | "0" is rejected and the API version stays "2.1" |
| Scenarios.UnknownEnvironmentRejected | lib/OpenPayU/Configuration.php:108-113 | "bogus" is rejected; the environment stays "secure" and the service URL stays unset |
| Scenarios.UpperCaseEnvironmentAccepted | lib/OpenPayU/Configuration.php:108-116 | "SECURE" is accepted and stored as "secure" |
| Scenarios.TrimmedMerchantPosId | lib/OpenPayU/Configuration.php:155-167 | setting the merchant POS id to "  abc  " reads back "abc" |

The plain getters `GetOauthClientId`, `GetOauthClientSecret` and `GetSender`
(lib/OpenPayU/Configuration.php:190-201, 231-234) return their field and
promise nothing more. The setters above state what those fields become.

## Left out

- `getSdkVersion` and `getComposerFilePath` (lib/OpenPayU/Configuration.php:247-267) read `composer.json` from the file system and decode JSON. The SDK version is therefore a parameter of `GetFullSenderName`. The fallback constant `DEFAULT_SDK_VERSION` is not modelled.
- `OpenPayU_Exception_Configuration` is not part of this model. A thrown exception is a `Fail` outcome that carries the kind of error and the offending value. The message texts are not modelled.
- Process-wide `static` storage is one object. Concurrency and process lifetime are not modelled.
- PHP loose typing is not modelled. Every argument is a string. This rules out the `mixed` arguments of the OAuth setters, the `(string)` cast in `setApiVersion`, and `empty` on non-string values.
- `in_array` and `==` use loose comparison in PHP. Between two strings that are not both numeric, it is plain string equality. No allowed environment or algorithm name is numeric, so the model compares strings exactly.
- `strtolower` is modelled as ASCII-only lower-casing. That is its behaviour since PHP 8.2, and in the "C" locale before that. Locale-dependent folding of other bytes is not modelled.
- PHP strings are byte strings; the model uses Dafny strings of characters. The trim set is the same six characters either way.
