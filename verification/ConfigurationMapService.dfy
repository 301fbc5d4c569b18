/**
 * Configuration assembly for brokering an external OpenID Connect identity
 * provider through a Keycloak realm: the redirect URL the provider sends users
 * back to, the provider's discovery URL, the request that imports the
 * provider's discovery document, and the final identity-provider configuration
 * map (the base map, minus `validateSignature`, overlaid with six required
 * entries).
 */
module KeycloakSetup {

  datatype Option<T> = None | Some(value: T)

  /** Configuration maps as the broker's admin API sees them. */
  type ConfigMap = map<string, string>

  /** The identity-provider descriptor; only the four getters used are modelled. */
  datatype IdentityProviderConfiguration = IdentityProviderConfiguration(
    clientId: string,
    clientSecret: string,
    domain: string,
    appName: string)

  // Keys and fixed values written by setupProviderConfig.
  const ValidateSignatureKey := "validateSignature"
  const ClientIdKey := "clientId"
  const ClientSecretKey := "clientSecret"
  const DefaultScopeKey := "defaultScope"
  const RedirectUrisKey := "redirectUris"
  const BackchannelSupportedKey := "backchannelSupported"
  const BackchannelLogoutSessionSupportedKey := "backchannel_logout_session_supported"
  const DefaultScope := "openid email profile"
  const TrueValue := "true"

  /** The six keys that setupProviderConfig always sets. */
  const RequiredKeys: set<string> := {
    ClientIdKey, ClientSecretKey, DefaultScopeKey, RedirectUrisKey,
    BackchannelSupportedKey, BackchannelLogoutSessionSupportedKey }

  // Keys of the import request built by importProviderFrom.
  const ProviderIdKey := "providerId"
  const FromUrlKey := "fromUrl"

  // Fixed pieces of the two URLs.
  const RealmsSegment := "auth/realms/"
  const BrokerSegment := "/broker/"
  const EndpointSegment := "/endpoint"
  const HttpsScheme := "https://"
  const WellKnownPath := ".well-known/openid-configuration"

  /** The three parts of `a + b + c` can be sliced back out of it. */
  lemma {:induction false} ConcatSlices(a: string, b: string, c: string)
    ensures var s := a + b + c;
      && s[..|a|] == a
      && s[|a|..|s| - |c|] == b
      && s[|s| - |c|..] == c
  {
    var s := a + b + c;
    assert forall i | 0 <= i < |a| :: s[i] == a[i];
    assert forall i | 0 <= i < |b| :: s[|a| + i] == b[i];
    assert forall i | 0 <= i < |c| :: s[|a| + |b| + i] == c[i];
  }

  /** A string with its first and last parts sliced off, put back together. */
  lemma {:induction false} SplitThree(s: string, i: nat, j: nat)
    requires i <= j <= |s|
    ensures s == s[..i] + s[i..j] + s[j..]
  {
  }

  /** Appending keeps a prefix. */
  lemma {:induction false} StartsWithAppend(s: string, t: string, prefix: string)
    requires StartsWith(s, prefix)
    ensures StartsWith(s + t, prefix)
  {
    assert (s + t)[..|prefix|] == s[..|prefix|];
  }

  /** Appending the same string to both sides keeps a suffix. */
  lemma {:induction false} EndsWithAppend(s: string, t: string, suffix: string)
    requires EndsWith(s, suffix)
    ensures EndsWith(s + t, suffix + t)
  {
    ConcatSlices(s[..|s| - |suffix|], suffix, t);
    assert s + t == s[..|s| - |suffix|] + suffix + t;
  }

  predicate StartsWith(s: string, prefix: string) {
    |prefix| <= |s| && s[..|prefix|] == prefix
  }

  predicate EndsWith(s: string, suffix: string) {
    |suffix| <= |s| && s[|s| - |suffix|..] == suffix
  }

  /** Java's `s.endsWith("/")`: false for the empty string. */
  predicate EndsWithSlash(s: string) {
    EndsWith(s, "/")
  }

  /**
   * `s` if it already ends with a slash, otherwise `s + "/"`: the shared
   * normalisation of both URL builders.
   */
  function WithTrailingSlash(s: string): (r: string)
    ensures EndsWithSlash(r)
    ensures StartsWith(r, s) && |r| <= |s| + 1
    ensures r == s <==> EndsWithSlash(s)
  {
    if EndsWithSlash(s) then s else s + "/"
  }

  /** Normalising twice is normalising once. */
  lemma WithTrailingSlashIdempotent(s: string)
    ensures WithTrailingSlash(WithTrailingSlash(s)) == WithTrailingSlash(s)
  {
  }

  /**
   * The normalisation adds a slash only when one is missing: its result is the
   * shortest extension of `s` that ends with a slash.
   */
  lemma WithTrailingSlashShortest(s: string, t: string)
    requires StartsWith(t, s) && EndsWithSlash(t)
    ensures |WithTrailingSlash(s)| <= |t|
  {
  }

  /** Appending a slash first changes nothing exactly when there was none. */
  lemma AppendSlashFirst(s: string)
    ensures WithTrailingSlash(s + "/") == WithTrailingSlash(s) <==> !EndsWithSlash(s)
  {
    assert EndsWithSlash(s + "/");
  }

  /**
   * getProviderDiscoveryUrl: the OpenID Connect discovery document location
   * (section 4 of OpenID Connect Discovery 1.0) for the provider's domain.
   */
  function ProviderDiscoveryUrl(provider: IdentityProviderConfiguration): (r: string)
    ensures StartsWith(r, HttpsScheme + provider.domain)
    ensures EndsWith(r, "/" + WellKnownPath)
  {
    var domainWithTrailingSlash := WithTrailingSlash(provider.domain);
    assert (HttpsScheme + domainWithTrailingSlash + WellKnownPath)[..|HttpsScheme + provider.domain|]
        == HttpsScheme + provider.domain;
    HttpsScheme + domainWithTrailingSlash + WellKnownPath
  }

  /**
   * The inverse of ProviderDiscoveryUrl: the slash-terminated domain a
   * discovery URL was built from, or None if the URL is not of that shape.
   */
  function DomainOf(url: string): (r: Option<string>)
    ensures r.Some? ==> EndsWithSlash(r.value) && url == HttpsScheme + r.value + WellKnownPath
  {
    if |HttpsScheme| + |WellKnownPath| <= |url|
       && StartsWith(url, HttpsScheme) && EndsWith(url, WellKnownPath)
       && EndsWithSlash(url[|HttpsScheme|..|url| - |WellKnownPath|])
    then
      SplitThree(url, |HttpsScheme|, |url| - |WellKnownPath|);
      Some(url[|HttpsScheme|..|url| - |WellKnownPath|])
    else None
  }

  /** The discovery URL determines the provider's normalised domain. */
  lemma {:induction false} DiscoveryUrlRoundTrip(provider: IdentityProviderConfiguration)
    ensures DomainOf(ProviderDiscoveryUrl(provider)) == Some(WithTrailingSlash(provider.domain))
  {
    ConcatSlices(HttpsScheme, WithTrailingSlash(provider.domain), WellKnownPath);
  }

  /** Every URL DomainOf accepts is the discovery URL of that domain. */
  lemma {:induction false} DomainOfSound(url: string, provider: IdentityProviderConfiguration)
    requires DomainOf(url) == Some(provider.domain)
    ensures ProviderDiscoveryUrl(provider) == url
  {
    SplitThree(url, |HttpsScheme|, |url| - |WellKnownPath|);
  }

  /**
   * For a domain without a trailing slash, appending one first yields the same
   * discovery URL; for a domain that has one, it does not.
   */
  lemma {:induction false} DiscoveryUrlSlashInvariant(provider: IdentityProviderConfiguration)
    ensures ProviderDiscoveryUrl(provider.(domain := provider.domain + "/")) == ProviderDiscoveryUrl(provider)
        <==> !EndsWithSlash(provider.domain)
  {
    AppendSlashFirst(provider.domain);
    var slashed := provider.(domain := provider.domain + "/");
    if ProviderDiscoveryUrl(slashed) == ProviderDiscoveryUrl(provider) {
      DiscoveryUrlRoundTrip(slashed);
      DiscoveryUrlRoundTrip(provider);
    }
  }

  /** Discovery URL of the domain `example.okta.com`. */
  lemma DiscoveryUrlExample()
    ensures ProviderDiscoveryUrl(IdentityProviderConfiguration("id", "secret", "example.okta.com", "okta"))
         == "https://example.okta.com/.well-known/openid-configuration"
  {
    var domain := "example.okta.com";
    assert domain[|domain| - 1..] == "m";
    assert WithTrailingSlash(domain) == "example.okta.com/";
    assert HttpsScheme + "example.okta.com/" == "https://example.okta.com/";
    assert "https://example.okta.com/" + WellKnownPath
        == "https://example.okta.com/.well-known/openid-configuration";
  }

  /**
   * The service: the webapp URL and the Airbyte realm name it was constructed
   * with. Neither is changed after construction.
   */
  datatype ConfigurationMapService = ConfigurationMapService(webappUrl: string, airbyteRealm: string)
  {
    /** Everything in a redirect URL that precedes the app name. */
    function RedirectPrefix(): (r: string) {
      WithTrailingSlash(webappUrl) + RealmsSegment + airbyteRealm + BrokerSegment
    }

    /**
     * getProviderRedirectUrl: the broker endpoint of the provider's app in the
     * Airbyte realm, under the webapp URL.
     */
    function ProviderRedirectUrl(provider: IdentityProviderConfiguration): (r: string)
      ensures StartsWith(r, webappUrl)
      ensures EndsWith(r, BrokerSegment + provider.appName + EndpointSegment)
    {
      var webappUrlWithTrailingSlash := WithTrailingSlash(webappUrl);
      var realmPart := webappUrlWithTrailingSlash + RealmsSegment + airbyteRealm;
      StartsWithAppend(webappUrlWithTrailingSlash, RealmsSegment, webappUrl);
      StartsWithAppend(webappUrlWithTrailingSlash + RealmsSegment, airbyteRealm, webappUrl);
      StartsWithAppend(realmPart, BrokerSegment, webappUrl);
      StartsWithAppend(realmPart + BrokerSegment, provider.appName, webappUrl);
      StartsWithAppend(realmPart + BrokerSegment + provider.appName, EndpointSegment, webappUrl);
      assert EndsWith(realmPart + BrokerSegment, BrokerSegment);
      EndsWithAppend(realmPart + BrokerSegment, provider.appName, BrokerSegment);
      EndsWithAppend(realmPart + BrokerSegment + provider.appName, EndpointSegment, BrokerSegment + provider.appName);
      RedirectPrefix() + provider.appName + EndpointSegment
    }

    /**
     * The inverse of ProviderRedirectUrl: the app name a redirect URL of this
     * service was built for, or None if the URL is not of that shape.
     */
    function AppNameOf(url: string): (r: Option<string>)
      ensures r.Some? ==> url == RedirectPrefix() + r.value + EndpointSegment
    {
      var prefix := RedirectPrefix();
      if |prefix| + |EndpointSegment| <= |url|
         && StartsWith(url, prefix) && EndsWith(url, EndpointSegment)
      then
        SplitThree(url, |prefix|, |url| - |EndpointSegment|);
        Some(url[|prefix|..|url| - |EndpointSegment|])
      else None
    }

    /** The redirect URL determines the app name. */
    lemma {:induction false} RedirectUrlRoundTrip(provider: IdentityProviderConfiguration)
      ensures AppNameOf(ProviderRedirectUrl(provider)) == Some(provider.appName)
    {
      ConcatSlices(RedirectPrefix(), provider.appName, EndpointSegment);
    }

    /** Every URL AppNameOf accepts is the redirect URL of that app name. */
    lemma {:induction false} AppNameOfSound(url: string, provider: IdentityProviderConfiguration)
      requires AppNameOf(url) == Some(provider.appName)
      ensures ProviderRedirectUrl(provider) == url
    {
      var prefix := RedirectPrefix();
      SplitThree(url, |prefix|, |url| - |EndpointSegment|);
    }

    /**
     * For a webapp URL without a trailing slash, appending one first yields the
     * same redirect URL; for one that has it, it does not.
     */
    lemma {:induction false} RedirectUrlSlashInvariant(provider: IdentityProviderConfiguration)
      ensures this.(webappUrl := webappUrl + "/").ProviderRedirectUrl(provider) == ProviderRedirectUrl(provider)
          <==> !EndsWithSlash(webappUrl)
    {
      AppendSlashFirst(webappUrl);
    }

    /** The six entries that setupProviderConfig always writes. */
    function RequiredEntries(provider: IdentityProviderConfiguration): (r: ConfigMap) {
      map[ClientIdKey := provider.clientId,
          ClientSecretKey := provider.clientSecret,
          DefaultScopeKey := DefaultScope,
          RedirectUrisKey := ProviderRedirectUrl(provider),
          BackchannelSupportedKey := TrueValue,
          BackchannelLogoutSessionSupportedKey := TrueValue]
    }

    /**
     * The provider configuration as an immutable builder: the base entries
     * other than `validateSignature`, overlaid with the required entries.
     */
    function ProviderConfig(provider: IdentityProviderConfiguration, base: ConfigMap): (r: ConfigMap)
      ensures ValidateSignatureKey !in r
      ensures ClientIdKey in r && r[ClientIdKey] == provider.clientId
      ensures ClientSecretKey in r && r[ClientSecretKey] == provider.clientSecret
      ensures DefaultScopeKey in r && r[DefaultScopeKey] == DefaultScope
      ensures RedirectUrisKey in r && r[RedirectUrisKey] == ProviderRedirectUrl(provider)
      ensures BackchannelSupportedKey in r && r[BackchannelSupportedKey] == TrueValue
      ensures BackchannelLogoutSessionSupportedKey in r && r[BackchannelLogoutSessionSupportedKey] == TrueValue
      ensures forall k :: k in base && k != ValidateSignatureKey && k !in RequiredKeys ==> k in r && r[k] == base[k]
      ensures r.Keys == (base.Keys - {ValidateSignatureKey}) + RequiredKeys
    {
      var copied := map k | k in base && k != ValidateSignatureKey :: base[k];
      copied + RequiredEntries(provider)
    }

    /**
     * setupProviderConfig: copies the base map into a fresh map, removes
     * `validateSignature`, then puts the six required entries one at a time.
     * The base map is a value and cannot be changed by the call.
     */
    method SetupProviderConfig(provider: IdentityProviderConfiguration, configMap: ConfigMap)
      returns (config: ConfigMap)
      ensures config == ProviderConfig(provider, configMap)
    {
      config := map[];
      config := config + configMap;
      config := config - {ValidateSignatureKey};
      config := config[ClientIdKey := provider.clientId];
      config := config[ClientSecretKey := provider.clientSecret];
      config := config[DefaultScopeKey := DefaultScope];
      config := config[RedirectUrisKey := ProviderRedirectUrl(provider)];
      config := config[BackchannelSupportedKey := TrueValue];
      config := config[BackchannelLogoutSessionSupportedKey := TrueValue];
    }

    /**
     * The configuration splits into the base entries that pass through
     * unchanged and the six required entries, on disjoint keys.
     */
    lemma ProviderConfigIsPassThroughPlusRequired(provider: IdentityProviderConfiguration, base: ConfigMap)
      ensures ProviderConfig(provider, base) == PassThrough(base) + RequiredEntries(provider)
      ensures PassThrough(base).Keys !! RequiredEntries(provider).Keys
    {
    }

    /** Setting up a configuration that was already set up changes nothing. */
    lemma {:induction false} ProviderConfigIdempotent(provider: IdentityProviderConfiguration, base: ConfigMap)
      ensures ProviderConfig(provider, ProviderConfig(provider, base)) == ProviderConfig(provider, base)
    {
      var once := ProviderConfig(provider, base);
      var twice := ProviderConfig(provider, once);
      assert forall k | k in twice :: twice[k] == once[k];
    }

    /**
     * Two base maps give the same configuration exactly when they agree on every
     * key other than `validateSignature` and the six required keys.
     */
    lemma {:induction false} ProviderConfigDependsOnlyOnPassThrough(
      provider: IdentityProviderConfiguration, base1: ConfigMap, base2: ConfigMap)
      ensures ProviderConfig(provider, base1) == ProviderConfig(provider, base2)
          <==> PassThrough(base1) == PassThrough(base2)
    {
      var c1, c2 := ProviderConfig(provider, base1), ProviderConfig(provider, base2);
      var p1, p2 := PassThrough(base1), PassThrough(base2);
      if c1 == c2 {
        assert p1.Keys == p2.Keys;
        assert forall k | k in p1 :: p1[k] == c1[k] == c2[k] == p2[k];
      }
      if p1 == p2 {
        assert c1.Keys == c2.Keys by {
          assert forall k :: k in base1 && k != ValidateSignatureKey && k !in RequiredKeys <==> k in p1;
          assert forall k :: k in base2 && k != ValidateSignatureKey && k !in RequiredKeys <==> k in p2;
        }
        assert forall k | k in c1 :: c1[k] == c2[k] by {
          forall k | k in c1 ensures c1[k] == c2[k] {
            if k !in RequiredKeys {
              assert p1[k] == base1[k] && p2[k] == base2[k];
            }
          }
        }
      }
    }

    /**
     * importProviderFrom's request: `providerId` and `fromUrl` (the provider's
     * discovery URL), built with two puts into a fresh map.
     */
    method ImportProviderRequest(provider: IdentityProviderConfiguration, keycloakProviderId: string)
      returns (request: ConfigMap)
      ensures request.Keys == {ProviderIdKey, FromUrlKey}
      ensures request[ProviderIdKey] == keycloakProviderId
      ensures request[FromUrlKey] == ProviderDiscoveryUrl(provider)
      ensures DomainOf(request[FromUrlKey]) == Some(WithTrailingSlash(provider.domain))
    {
      request := map[];
      request := request[ProviderIdKey := keycloakProviderId];
      request := request[FromUrlKey := ProviderDiscoveryUrl(provider)];
      DiscoveryUrlRoundTrip(provider);
    }
  }

  /** The base-map entries that reach the configuration unchanged. */
  function PassThrough(base: ConfigMap): (r: ConfigMap) {
    map k | k in base && k != ValidateSignatureKey && k !in RequiredKeys :: base[k]
  }

  /** Redirect URL for webapp `https://app.example.com`, realm `airbyte`, app `okta`. */
  lemma RedirectUrlExample()
    ensures ConfigurationMapService("https://app.example.com", "airbyte")
              .ProviderRedirectUrl(IdentityProviderConfiguration("id", "secret", "example.okta.com", "okta"))
         == "https://app.example.com/auth/realms/airbyte/broker/okta/endpoint"
  {
    var webappUrl := "https://app.example.com";
    assert webappUrl[|webappUrl| - 1..] == "m";
    assert WithTrailingSlash(webappUrl) == "https://app.example.com/";
    ExampleRedirectUrlSpelledOut();
  }

  /** The same app behind a webapp URL that already ends with a slash. */
  lemma RedirectUrlExampleTrailingSlash()
    ensures ConfigurationMapService("https://app.example.com/", "airbyte")
              .ProviderRedirectUrl(IdentityProviderConfiguration("id", "secret", "example.okta.com", "okta"))
         == "https://app.example.com/auth/realms/airbyte/broker/okta/endpoint"
  {
    var webappUrl := "https://app.example.com/";
    assert webappUrl[|webappUrl| - 1..] == "/";
    assert WithTrailingSlash(webappUrl) == "https://app.example.com/";
    ExampleRedirectUrlSpelledOut();
  }

  /** The concatenation behind both redirect examples. */
  lemma ExampleRedirectUrlSpelledOut()
    ensures "https://app.example.com/" + RealmsSegment + "airbyte" + BrokerSegment + "okta" + EndpointSegment
         == "https://app.example.com/auth/realms/airbyte/broker/okta/endpoint"
  {
  }
}
