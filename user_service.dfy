/**
 * `UserService`: the typed service wrapper. Its constructor takes an optional
 * base URL that overrides the configuration; its `client()` always attaches
 * Basic authentication with whatever `env()` returned and calls `retry(3)`
 * (at most 3 attempts) with no delay argument. It has one operation more than `UserApiClient`:
 * `token`.
 */
module UserService {
  import opened Wrappers
  import Php
  import Laravel
  import BaseUrl
  import opened Http

  const BaseUrlConfigKey := "stellar-user.base_url"
  const UsernameKeyConfigKey := "stellar-user.username_env"
  const PasswordKeyConfigKey := "stellar-user.password_env"

  const DefaultBaseUrl := "https://stellaruserapiprod.azurewebsites.net/api/"
  const DefaultUsernameEnvKey := "APPSETTING_API_USERNAME_STELLAR_USER_API"
  const DefaultPasswordEnvKey := "APPSETTING_API_PASSWORD_STELLAR_USER_API"

  /** The three fields the constructor sets and nothing changes afterwards. */
  datatype Service = Service(baseUrl: string, usernameEnvKey: string, passwordEnvKey: string)

  /**
   * `$baseUrl ?: config('stellar-user.base_url', ...)`: a `null`, `""` or
   * `"0"` argument falls through to the configured URL or its default.
   */
  function ChosenBaseUrl(baseUrl: Option<string>, config: map<string, string>): (url: string)
    ensures baseUrl.Some? && baseUrl.value != "" && baseUrl.value != "0" ==> url == baseUrl.value
    ensures (baseUrl == None || baseUrl.value == "" || baseUrl.value == "0") && BaseUrlConfigKey in config ==>
      url == config[BaseUrlConfigKey]
    ensures (baseUrl == None || baseUrl.value == "" || baseUrl.value == "0") && BaseUrlConfigKey !in config ==>
      url == DefaultBaseUrl
  {
    var argument := if baseUrl.Some? then Php.Str(baseUrl.value) else Php.Null;
    var chosen := Php.Elvis(argument, Php.Str(Laravel.Config(config, BaseUrlConfigKey, DefaultBaseUrl)));
    if chosen.Str? then chosen.s else ""
  }

  /** The constructor: the chosen base URL, normalised, and the two variable names from the configuration. */
  function New(baseUrl: Option<string>, config: map<string, string>): (s: Service)
    ensures BaseUrl.IsNormalized(s.baseUrl)
    ensures baseUrl.Some? && baseUrl.value != "" && baseUrl.value != "0" ==>
      s.baseUrl == BaseUrl.Normalize(baseUrl.value)
    ensures (baseUrl == None || baseUrl.value == "" || baseUrl.value == "0") && BaseUrlConfigKey in config ==>
      s.baseUrl == BaseUrl.Normalize(config[BaseUrlConfigKey])
    ensures (baseUrl == None || baseUrl.value == "" || baseUrl.value == "0") && BaseUrlConfigKey !in config ==>
      s.baseUrl == DefaultBaseUrl
    ensures UsernameKeyConfigKey in config ==> s.usernameEnvKey == config[UsernameKeyConfigKey]
    ensures UsernameKeyConfigKey !in config ==> s.usernameEnvKey == DefaultUsernameEnvKey
    ensures PasswordKeyConfigKey in config ==> s.passwordEnvKey == config[PasswordKeyConfigKey]
    ensures PasswordKeyConfigKey !in config ==> s.passwordEnvKey == DefaultPasswordEnvKey
  {
    BaseUrl.NormalizeFixesExactlyNormalized(DefaultBaseUrl);
    Service(
      BaseUrl.Normalize(ChosenBaseUrl(baseUrl, config)),
      Laravel.Config(config, UsernameKeyConfigKey, DefaultUsernameEnvKey),
      Laravel.Config(config, PasswordKeyConfigKey, DefaultPasswordEnvKey))
  }

  /**
   * What `client()` sets up, stated over the environment: Basic
   * authentication always, carrying each variable's value or `null` when it
   * is not set, and `retry(3)`: at most 3 attempts, no delay argument.
   */
  predicate Configured(s: Service, env: map<string, string>, auth: Authorization, retryTimes: nat, retryDelay: Option<nat>) {
    && retryTimes == 3
    && retryDelay == None
    && auth.BasicAuth?
    && (auth.username.Some? <==> s.usernameEnvKey in env)
    && (auth.username.Some? ==> auth.username.value == env[s.usernameEnvKey])
    && (auth.password.Some? <==> s.passwordEnvKey in env)
    && (auth.password.Some? ==> auth.password.value == env[s.passwordEnvKey])
  }

  /** `client()`. */
  function Pending(s: Service, env: map<string, string>): (p: PendingRequest)
    ensures Configured(s, env, p.auth, p.retryTimes, p.retryDelay)
  {
    var username := Laravel.Env(env, s.usernameEnvKey);
    var password := Laravel.Env(env, s.passwordEnvKey);
    PendingRequest(BasicAuth(username, password), 3, None)
  }

  /** `create($data)`: POST to `createuser` with the payload as given. */
  function Create(s: Service, env: map<string, string>, data: map<string, string>): (r: Request)
    ensures r.verb == POST && r.url == s.baseUrl + "v1/usercontroller/createuser"
    ensures r.body == Fields(data)
    ensures Configured(s, env, r.auth, r.retryTimes, r.retryDelay)
  {
    Send(Pending(s, env), POST, s.baseUrl + "v1/usercontroller/createuser", Fields(data))
  }

  /** `sendResetPasswordLink($email, $confirmationCode)`: POST with exactly those two fields in the body. */
  function SendResetPasswordLink(s: Service, env: map<string, string>, email: string, confirmationCode: string): (r: Request)
    ensures r.verb == POST && r.url == s.baseUrl + "v1/usercontroller/sendresetpasswordlink"
    ensures && r.body.Fields?
            && r.body.fields.Keys == {"email", "confirmation_code"}
            && r.body.fields["email"] == email
            && r.body.fields["confirmation_code"] == confirmationCode
    ensures Configured(s, env, r.auth, r.retryTimes, r.retryDelay)
  {
    Send(Pending(s, env), POST, s.baseUrl + "v1/usercontroller/sendresetpasswordlink",
      Fields(map["email" := email, "confirmation_code" := confirmationCode]))
  }

  /** `verifyResetPasswordConfirmationCode(...)`: POST with exactly the three fields. */
  function VerifyResetPasswordConfirmationCode(
    s: Service, env: map<string, string>, email: string, confirmationCode: string, newPassword: string): (r: Request)
    ensures r.verb == POST && r.url == s.baseUrl + "v1/usercontroller/verifyresetpasswordconfirmationcode"
    ensures && r.body.Fields?
            && r.body.fields.Keys == {"email", "confirmation_code", "new_password"}
            && r.body.fields["email"] == email
            && r.body.fields["confirmation_code"] == confirmationCode
            && r.body.fields["new_password"] == newPassword
    ensures Configured(s, env, r.auth, r.retryTimes, r.retryDelay)
  {
    Send(Pending(s, env), POST, s.baseUrl + "v1/usercontroller/verifyresetpasswordconfirmationcode",
      Fields(map["email" := email, "confirmation_code" := confirmationCode, "new_password" := newPassword]))
  }

  /** `patch($data)`: PATCH to `patch` with the payload as given. */
  function Patch(s: Service, env: map<string, string>, data: map<string, string>): (r: Request)
    ensures r.verb == PATCH && r.url == s.baseUrl + "v1/usercontroller/patch"
    ensures r.body == Fields(data)
    ensures Configured(s, env, r.auth, r.retryTimes, r.retryDelay)
  {
    Send(Pending(s, env), PATCH, s.baseUrl + "v1/usercontroller/patch", Fields(data))
  }

  /** `auth($data)`: POST to `login` with the payload as given. */
  function Auth(s: Service, env: map<string, string>, data: map<string, string>): (r: Request)
    ensures r.verb == POST && r.url == s.baseUrl + "v1/usercontroller/login"
    ensures r.body == Fields(data)
    ensures Configured(s, env, r.auth, r.retryTimes, r.retryDelay)
  {
    Send(Pending(s, env), POST, s.baseUrl + "v1/usercontroller/login", Fields(data))
  }

  /** `user($id)`: GET with the id appended to the path unescaped, and no body. */
  function User(s: Service, env: map<string, string>, id: string): (r: Request)
    ensures r.verb == GET && r.url == s.baseUrl + "v1/usercontroller/user/" + id
    ensures r.body == NoBody
    ensures Configured(s, env, r.auth, r.retryTimes, r.retryDelay)
  {
    Send(Pending(s, env), GET, s.baseUrl + "v1/usercontroller/user/" + id, NoBody)
  }

  /** `token($token)`: GET with the token appended to the path unescaped, and no body. */
  function Token(s: Service, env: map<string, string>, token: string): (r: Request)
    ensures r.verb == GET && r.url == s.baseUrl + "v1/personaltokencontroller/" + token
    ensures r.body == NoBody
    ensures Configured(s, env, r.auth, r.retryTimes, r.retryDelay)
  {
    Send(Pending(s, env), GET, s.baseUrl + "v1/personaltokencontroller/" + token, NoBody)
  }

  /**
   * For a service with a normalised base URL (every service `New` builds),
   * every operation's URL continues the base URL with no `//` at the junction.
   */
  lemma UrlsJoinCleanly(
    s: Service, env: map<string, string>, data: map<string, string>,
    email: string, confirmationCode: string, newPassword: string, id: string, token: string)
    requires BaseUrl.IsNormalized(s.baseUrl)
    ensures BaseUrl.JoinedCleanly(s.baseUrl, Create(s, env, data).url)
    ensures BaseUrl.JoinedCleanly(s.baseUrl, SendResetPasswordLink(s, env, email, confirmationCode).url)
    ensures BaseUrl.JoinedCleanly(s.baseUrl, VerifyResetPasswordConfirmationCode(s, env, email, confirmationCode, newPassword).url)
    ensures BaseUrl.JoinedCleanly(s.baseUrl, Patch(s, env, data).url)
    ensures BaseUrl.JoinedCleanly(s.baseUrl, Auth(s, env, data).url)
    ensures BaseUrl.JoinedCleanly(s.baseUrl, User(s, env, id).url)
    ensures BaseUrl.JoinedCleanly(s.baseUrl, Token(s, env, token).url)
  {
  }
}
