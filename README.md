# Stellar User API clients — request construction

A Dafny model of the request-building layer of the Laravel package for the
Stellar User API. The package has two client classes, `UserApiClient` and
`UserService`. Each one:

- normalises its base URL once, in its constructor, with `rtrim($url, '/') . '/'`;
- looks up the API username and password in the environment, by variable
  names taken from the configuration;
- turns each public operation (`create`, `sendResetPasswordLink`,
  `verifyResetPasswordConfirmationCode`, `patch`, `auth`, `user` and, in
  `UserService` only, `token`) into one HTTP request. The request has a fixed
  verb, the base URL followed by a fixed path, and a body. The body is either
  the caller's array as given or a fixed set of named fields.

Both classes are pure in the sense that matters here. The constructor sets
three fields and nothing changes them afterwards. Every operation is a
straight-line expression. So each class is a module with an immutable record
(`UserApiClient.Client`, `UserService.Service`) and one function per
operation. Each function returns the request descriptor handed to Laravel's
HTTP client: verb, URL, body, Basic authentication (if any) and the `retry`
arguments. The configuration and the environment are maps. Operations take
the environment as an argument, because the credentials are read afresh on
every call.

Modules:

- `Php`: PHP truthiness (`null`, `false`, `""` and `"0"` are falsy), the short ternary `?:`, `getenv` and `rtrim`.
  `Truthy`, `Elvis` and `GetEnv` are definitions with no contract of their own. `Credential` and `ChosenBaseUrl` state what the expressions built from them amount to.
- `Laravel`: `config()` and `env()` as map lookups with a fallback. These are definitions with no contract of their own. `New` and `Pending` state their effect.
- `BaseUrl`: normalisation, its properties, and the clean junction between the base URL and an endpoint path.
- `Http`: the request descriptor. `Send`, the verb call, is a definition with no contract of its own.
- `UserApiClient`, `UserService`: the two classes.
- `ClientComparison`: where the two classes agree and where they differ.
- `Scenarios`: concrete requests.

The two classes differ as follows. The model proves each difference.

- Credential variable names: `UserApiClient` reads them from
  `stellar-user.username_env_key` / `stellar-user.password_env_key`.
  `UserService` reads them from `stellar-user.username_env` /
  `stellar-user.password_env`.
- Base URL override: only `UserService` takes a base-URL argument. A `null`,
  `""` or `"0"` argument falls through to the configuration.
- Authorisation: `UserApiClient` attaches Basic authentication only when both
  credentials resolve to truthy values, and otherwise sends none.
  `UserService` always calls `withBasicAuth`, with whatever `env()` returned,
  including `null`.
- Retries: `UserApiClient` calls `retry(3, 200)`: at most 3 attempts,
  200 ms apart. `UserService` calls `retry(3)`: at most 3 attempts, with no
  delay argument.

Two behaviours follow directly from the code. Neither `user()` checks its
id, so `user("")` requests `.../v1/usercontroller/user/`. The doc comment of
`UserService::sendResetPasswordLink` mentions query parameters, but the code
sends the two fields as the POST body, and so does the model.

## Model

| member | source | states |
|---|---|---|
| `Php.RTrim` | src/UserApiClient.php:45 | `rtrim` with a one-character mask. The result is a prefix of the input and does not end in the character. Everything it cut off is that character. |
| `Php.RTrimCharacterised` | src/UserService.php:46-49 | Those three properties determine `rtrim`'s result uniquely. Any prefix that has them equals `RTrim`. |
| `BaseUrl.Normalize` | src/UserApiClient.php:45 | The normalised base URL ends in exactly one `/`. Without that `/` it is a prefix of the configured URL, and everything removed from the configured URL was `/`. |
| `BaseUrl.NormalizeAppendsOne` | src/UserApiClient.php:45 | A URL that does not end in `/` gains exactly one. |
| `BaseUrl.NormalizeIgnoresTrailingSeparators` | src/UserService.php:46-49 | Any number of trailing `/` gives the same normalised URL as none. |
| `BaseUrl.NormalizeAllSeparators` | src/UserApiClient.php:45 | An empty or all-`/` URL normalises to `"/"`. |
| `BaseUrl.NormalizeFixesExactlyNormalized` | src/UserService.php:46-49 | Normalisation leaves a URL unchanged if and only if the URL already ends in exactly one `/`. |
| `BaseUrl.NormalizeIdempotent` | src/UserApiClient.php:45 | Normalising twice equals normalising once. |
| `BaseUrl.JoinIsClean` | src/UserApiClient.php:180 | A normalised base followed by a path that does not start with `/` has exactly one `/` at the junction, with no `//` across it. |
| `UserApiClient.New` | src/UserApiClient.php:43-50 | The base URL is the normalised `stellar-user.base_url`. When that key is not set, it is exactly the production default. The variable names come from `stellar-user.username_env_key` / `password_env_key`, or the default names when those keys are not set. |
| `UserApiClient.Credential` | src/UserApiClient.php:55-70 | A credential resolves if and only if the variable name is neither `""` nor `"0"`, the variable is set, and its value is neither `""` nor `"0"`. When it resolves, it is exactly the variable's value. |
| `UserApiClient.Pending` | src/UserApiClient.php:75-87 | Calls `retry(3, 200)`: at most 3 attempts, 200 ms apart. Basic authentication is attached if and only if both credentials resolve, and it carries exactly the two environment values. |
| `UserApiClient.Create` | src/UserApiClient.php:97-103 | POST to base + `v1/usercontroller/createuser`, with the payload as the body unmodified and the client's auth/retry policy. |
| `UserApiClient.SendResetPasswordLink` | src/UserApiClient.php:112-120 | POST to base + `v1/usercontroller/sendresetpasswordlink`. The body has exactly the keys `email` and `confirmation_code`, mapped to the arguments. |
| `UserApiClient.VerifyResetPasswordConfirmationCode` | src/UserApiClient.php:130-142 | POST to base + `v1/usercontroller/verifyresetpasswordconfirmationcode`. The body has exactly the keys `email`, `confirmation_code` and `new_password`, mapped to the arguments. |
| `UserApiClient.Patch` | src/UserApiClient.php:150-155 | PATCH to base + `v1/usercontroller/patch`, with the payload unmodified. |
| `UserApiClient.Auth` | src/UserApiClient.php:165-170 | POST to base + `v1/usercontroller/login`, with the payload unmodified. |
| `UserApiClient.User` | src/UserApiClient.php:178-183 | GET to exactly base + `v1/usercontroller/user/` + id, with the id not escaped and no body. |
| `UserApiClient.UrlsJoinCleanly` | src/UserApiClient.php:97-183 | With a normalised base URL, every operation's URL extends the base with no `//` at the junction. |
| `UserService.ChosenBaseUrl` | src/UserService.php:46-47 | A truthy argument overrides the configuration. A `null`, `""` or `"0"` argument gives the configured `stellar-user.base_url`, or the default when that key is not set. |
| `UserService.New` | src/UserService.php:43-61 | The base URL is the chosen URL, normalised. It ends in exactly one `/`, and with no override and no configured URL it is exactly the default. The variable names come from `stellar-user.username_env` / `password_env`, or the defaults. |
| `UserService.Pending` | src/UserService.php:66-73 | Basic authentication is always attached. Each part is the variable's value, or `null` when the variable is not set. Calls `retry(3)`: at most 3 attempts, with no delay argument. |
| `UserService.Create` | src/UserService.php:80-86 | POST to base + `v1/usercontroller/createuser`, with the payload unmodified and the service's auth/retry policy. |
| `UserService.SendResetPasswordLink` | src/UserService.php:93-104 | POST to base + `v1/usercontroller/sendresetpasswordlink`. The body has exactly `email` and `confirmation_code`. |
| `UserService.VerifyResetPasswordConfirmationCode` | src/UserService.php:111-124 | POST to base + `v1/usercontroller/verifyresetpasswordconfirmationcode`. The body has exactly `email`, `confirmation_code` and `new_password`, mapped to the arguments. |
| `UserService.Patch` | src/UserService.php:131-137 | PATCH to base + `v1/usercontroller/patch`, with the payload unmodified. |
| `UserService.Auth` | src/UserService.php:144-150 | POST to base + `v1/usercontroller/login`, with the payload unmodified. |
| `UserService.User` | src/UserService.php:157-162 | GET to exactly base + `v1/usercontroller/user/` + id, with no body. |
| `UserService.Token` | src/UserService.php:170-175 | GET to exactly base + `v1/personaltokencontroller/` + token, with the token not escaped and no body. |
| `UserService.UrlsJoinCleanly` | src/UserService.php:80-175 | With a normalised base URL, every operation's URL, `token` included, extends the base with no `//` at the junction. |
| `ClientComparison.SharedOperationsAgree` | src/UserService.php:80-162 | From the same base URL, the six shared operations build the same verb, URL and body in both classes. |
| `ClientComparison.BaseUrlAgreesWithoutOverride` | src/UserService.php:43-49 | With a `null`, `""` or `"0"` argument, `UserService` gets the same base URL as `UserApiClient` from the same configuration. |
| `ClientComparison.CredentialKeyNamesDiffer` | src/UserService.php:52-60 | The four configuration keys naming the credential variables are pairwise distinct across the two classes: `username_env_key`/`password_env_key` versus `username_env`/`password_env`. |
| `ClientComparison.ClientKeysLeaveServiceDefaults` | src/UserService.php:52-60 | Setting `UserApiClient`'s two keys to any values gives it those names. `UserService` stays on its default names when its own keys are unset. |
| `ClientComparison.ServiceKeysLeaveClientDefaults` | src/UserApiClient.php:48-49 | Setting `UserService`'s two keys to any values gives it those names. `UserApiClient` stays on its default names when its own keys are unset. |
| `ClientComparison.AuthorizationPolicies` | src/UserService.php:66-73 | Reading the same variables, both classes attach the same authentication when both credentials are set. Otherwise `UserApiClient` sends none, while `UserService` still attaches Basic authentication. |
| `ClientComparison.RetryPolicies` | src/UserService.php:71-72 | Both classes pass 3 to `retry` (at most 3 attempts). Only `UserApiClient` passes a 200 ms delay. |
| `Scenarios.UserUrlOnDefaultBase` | src/UserApiClient.php:178-183 | On the default base URL, `user($id)` requests the production user URL with the id appended. |
| `Scenarios.DefaultUserById` | src/UserApiClient.php:178-183 | With no configuration, `user("42")` is GET `https://stellaruserapiprod.azurewebsites.net/api/v1/usercontroller/user/42` with no body. |
| `Scenarios.OverrideWithTrailingSeparators` | src/UserService.php:43-49 | An override ending in `///` keeps exactly one `/`. |
| `Scenarios.ZeroPasswordDisablesClientAuth` | src/UserApiClient.php:55-86 | With a password of `"0"`, `UserApiClient` sends no authentication, while `UserService` sends `("api", "0")`. |
| `Scenarios.ClientAuthenticatesWithEnvironment` | src/UserApiClient.php:75-87 | With both variables set, `UserApiClient` authenticates with exactly their values. |

## Left out

- The HTTP transport: `Http::retry`, `withBasicAuth`, `get`/`post`/`patch`, sending, the retry loop and its exceptions. The model stops at the descriptor handed to them and records the retry arguments as values.
- Base64 encoding of the `Authorization` header: the descriptor records the credential pair instead.
- What Laravel does with a `null` credential passed to `withBasicAuth` by `UserService`: the model records the `null` (`None`) and goes no further.
- The synchronous versus promise return (`PromiseInterface|Response`).
- `env()`'s own string coercions (`"null"`, `"(true)"`, quoted values and so on): `env()` is a plain map lookup with a `null` default. `getenv()` and `env()` read the same map, whereas in a running process they may consult different stores.
- Configuration values that are not strings (a `null` or an array under a key): the model's configuration maps keys to strings.
- Payload arrays: values are modelled as strings and keys as a map, so PHP's `mixed` values, integer keys and key order are not captured.
- src/Facades/StellarUser.php: a static accessor string, which is framework glue.
- src/StellarUserServiceProvider.php: container registration and config publishing, which are framework glue. The `config/stellar-user.php` file it publishes is not part of this model.
