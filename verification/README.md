# Keycloak identity-provider configuration map, in Dafny

This project models `ConfigurationMapService` from Airbyte's Keycloak setup. That service prepares
what the Keycloak admin API needs to register an external OpenID Connect identity provider
(Okta, for example) as a broker in the Airbyte realm:

- the **redirect URL**: the webapp URL, given a trailing slash if it has none, followed by
  `auth/realms/{realm}/broker/{appName}/endpoint`;
- the **discovery URL**: `https://`, the provider's domain given a trailing slash if it has
  none, then `.well-known/openid-configuration`. This is the location that section 4 of
  OpenID Connect Discovery 1.0 defines;
- the **import request**: a two-entry map, `providerId` and `fromUrl`;
- the **provider configuration**: a fresh copy of a base map with `validateSignature` removed
  and six entries set: `clientId`, `clientSecret`, `defaultScope` (`openid email profile`),
  `redirectUris` (the redirect URL), `backchannelSupported` and
  `backchannel_logout_session_supported` (both `true`).

Everything is in one module, `KeycloakSetup` (file `ConfigurationMapService.dfy`):

- The provider descriptor is the datatype `IdentityProviderConfiguration`.
- The service is the datatype `ConfigurationMapService(webappUrl, airbyteRealm)`. Its two
  fields are final in the source and are never changed after construction.
- The two URL builders are pure functions. Each has an inverse parser (`DomainOf`, `AppNameOf`).
  Round-trip lemmas in both directions connect each builder to its parser.
- `SetupProviderConfig` and `ImportProviderRequest` are methods. They build their local map one
  step at a time, as the source does (`putAll`, `remove`, then one `put` per key).
  `SetupProviderConfig` is proved equal to `ProviderConfig`, a filter-then-overlay definition of
  the result. The key-exclusion, overlay, pass-through and key-set properties are proved about
  `ProviderConfig`.

The source removes `validateSignature` before it writes the six entries, and the model keeps
that order. Writing the entries first and removing the key afterwards would give the same map,
because `validateSignature` is not one of the six keys.

## Model

| member | source | states |
|---|---|---|
| KeycloakSetup.WithTrailingSlash | airbyte-keycloak-setup/src/main/java/io/airbyte/keycloak/setup/ConfigurationMapService.java:65 | The result ends with `/` and extends its input by at most one character. It equals the input exactly when the input already ends with `/`, matching Java's `endsWith("/")` (false for the empty string). |
| KeycloakSetup.WithTrailingSlashIdempotent | airbyte-keycloak-setup/src/main/java/io/airbyte/keycloak/setup/ConfigurationMapService.java:70 | Normalising a trailing slash twice gives the same result as normalising once. |
| KeycloakSetup.WithTrailingSlashShortest | airbyte-keycloak-setup/src/main/java/io/airbyte/keycloak/setup/ConfigurationMapService.java:65 | A slash is added only when one is missing: the result is no longer than any extension of the input that ends with `/`. |
| KeycloakSetup.AppendSlashFirst | airbyte-keycloak-setup/src/main/java/io/airbyte/keycloak/setup/ConfigurationMapService.java:65 | Appending `/` before normalising gives the same result if and only if the input did not end with `/`. |
| KeycloakSetup.ProviderDiscoveryUrl | airbyte-keycloak-setup/src/main/java/io/airbyte/keycloak/setup/ConfigurationMapService.java:69-72 | The discovery URL starts with `https://` followed by the domain, and ends with `/.well-known/openid-configuration`. |
| KeycloakSetup.DomainOf | airbyte-keycloak-setup/src/main/java/io/airbyte/keycloak/setup/ConfigurationMapService.java:69-72 | The inverse parser for the discovery URL shape built at lines 70-71. Any domain it returns ends with `/`, and the URL is exactly `https://` + that domain + `.well-known/openid-configuration`. |
| KeycloakSetup.DiscoveryUrlRoundTrip | airbyte-keycloak-setup/src/main/java/io/airbyte/keycloak/setup/ConfigurationMapService.java:69-72 | Parsing a provider's discovery URL gives back the provider's domain with its trailing slash normalised. |
| KeycloakSetup.DomainOfSound | airbyte-keycloak-setup/src/main/java/io/airbyte/keycloak/setup/ConfigurationMapService.java:69-72 | Any URL the parser accepts is exactly the discovery URL of the domain it returns, so the builder and the parser are inverses. |
| KeycloakSetup.DiscoveryUrlSlashInvariant | airbyte-keycloak-setup/src/main/java/io/airbyte/keycloak/setup/ConfigurationMapService.java:70-71 | Appending `/` to the domain first gives the same discovery URL if and only if the domain had no trailing slash. |
| KeycloakSetup.DiscoveryUrlExample | airbyte-keycloak-setup/src/main/java/io/airbyte/keycloak/setup/ConfigurationMapService.java:70-71 | The domain `example.okta.com` gives `https://example.okta.com/.well-known/openid-configuration`. |
| KeycloakSetup.ConfigurationMapService.ProviderRedirectUrl | airbyte-keycloak-setup/src/main/java/io/airbyte/keycloak/setup/ConfigurationMapService.java:64-67 | The redirect URL starts with the webapp URL and ends with `/broker/{appName}/endpoint`. |
| KeycloakSetup.ConfigurationMapService.AppNameOf | airbyte-keycloak-setup/src/main/java/io/airbyte/keycloak/setup/ConfigurationMapService.java:64-67 | The inverse parser for the redirect URL shape built at lines 65-66. Any URL it accepts is exactly the service's prefix (normalised webapp URL, `auth/realms/`, realm, `/broker/`) + the app name it returns + `/endpoint`. |
| KeycloakSetup.ConfigurationMapService.RedirectUrlRoundTrip | airbyte-keycloak-setup/src/main/java/io/airbyte/keycloak/setup/ConfigurationMapService.java:64-67 | Parsing a redirect URL against the service's webapp URL and realm gives back the provider's app name. |
| KeycloakSetup.ConfigurationMapService.AppNameOfSound | airbyte-keycloak-setup/src/main/java/io/airbyte/keycloak/setup/ConfigurationMapService.java:64-67 | Any URL the redirect parser accepts is exactly the redirect URL for the app name it returns. |
| KeycloakSetup.ConfigurationMapService.RedirectUrlSlashInvariant | airbyte-keycloak-setup/src/main/java/io/airbyte/keycloak/setup/ConfigurationMapService.java:65-66 | Appending `/` to the webapp URL first gives the same redirect URL if and only if the webapp URL had no trailing slash. |
| KeycloakSetup.RedirectUrlExample | airbyte-keycloak-setup/src/main/java/io/airbyte/keycloak/setup/ConfigurationMapService.java:65-66 | Webapp `https://app.example.com`, realm `airbyte` and app `okta` give `https://app.example.com/auth/realms/airbyte/broker/okta/endpoint`. |
| KeycloakSetup.RedirectUrlExampleTrailingSlash | airbyte-keycloak-setup/src/main/java/io/airbyte/keycloak/setup/ConfigurationMapService.java:65-66 | The webapp URL `https://app.example.com/` (with its trailing slash) gives the same redirect URL. |
| KeycloakSetup.ConfigurationMapService.ProviderConfig | airbyte-keycloak-setup/src/main/java/io/airbyte/keycloak/setup/ConfigurationMapService.java:40-62 | `validateSignature` is never in the result. The six required keys always map to the provider's client id, its client secret, `openid email profile`, the redirect URL, `true` and `true`, whatever the base map held for them. Every other base key keeps its value. The key set is exactly the base keys minus `validateSignature`, plus the six required keys. |
| KeycloakSetup.ConfigurationMapService.SetupProviderConfig | airbyte-keycloak-setup/src/main/java/io/airbyte/keycloak/setup/ConfigurationMapService.java:40-62 | Copying, removing `validateSignature`, then the six puts in the source's order produce exactly `ProviderConfig`. The base map is a value, so it is left unchanged. |
| KeycloakSetup.ConfigurationMapService.ProviderConfigIdempotent | airbyte-keycloak-setup/src/main/java/io/airbyte/keycloak/setup/ConfigurationMapService.java:51-59 | Running the setup again on its own result changes nothing. |
| KeycloakSetup.ConfigurationMapService.ProviderConfigDependsOnlyOnPassThrough | airbyte-keycloak-setup/src/main/java/io/airbyte/keycloak/setup/ConfigurationMapService.java:44-59 | Two base maps give the same configuration if and only if they agree on every key other than `validateSignature` and the six required keys. |
| KeycloakSetup.ConfigurationMapService.ProviderConfigIsPassThroughPlusRequired | airbyte-keycloak-setup/src/main/java/io/airbyte/keycloak/setup/ConfigurationMapService.java:44-59 | The configuration is the base entries that pass through unchanged (every key except `validateSignature` and the six required keys, each with its base value), overlaid with the six required entries. The two parts have disjoint keys. |
| KeycloakSetup.ConfigurationMapService.ImportProviderRequest | airbyte-keycloak-setup/src/main/java/io/airbyte/keycloak/setup/ConfigurationMapService.java:34-36 | The request has exactly the keys `providerId` and `fromUrl`. `providerId` is the given provider id. `fromUrl` is the discovery URL, which parses back to the provider's normalised domain. |

## Left out

- The call `keycloakRealm.identityProviders().importFrom(map)` (airbyte-keycloak-setup/src/main/java/io/airbyte/keycloak/setup/ConfigurationMapService.java:37) is not modelled. It is a network call into the Keycloak admin client library, and its result is opaque. `ImportProviderRequest` models only the request map built before it.
- Dependency injection (`@Singleton`, `@Value`, constructor wiring) is not modelled. The webapp URL and the realm name are plain fields of an immutable service value.
- The internals of `AirbyteKeycloakConfiguration` and `IdentityProviderConfiguration` are not modelled. Only the getters used are, as string fields.
- Java `null` is not modelled. All strings and map values are taken to be non-null.
- `HashMap` hashing and iteration order are not modelled. Maps are mathematical `map<string, string>` values. The import request, a `Map<String, Object>` in the source, holds only strings, so it is modelled as `map<string, string>` too.
