/**
 * `UserApiClient`: the container-registered client. Its constructor fixes the
 * base URL and the names of the two environment variables holding the
 * credentials; every operation re-reads the credentials, attaches Basic
 * authentication only when both are set, and calls `retry(3, 200)`: at most
 * 3 attempts, 200 ms apart.
 */
module UserApiClient {
  import opened Wrappers
  import Php
  import Laravel
  import BaseUrl
  import opened Http

  const BaseUrlConfigKey := "stellar-user.base_url"
  const UsernameKeyConfigKey := "stellar-user.username_env_key"
  const PasswordKeyConfigKey := "stellar-user.password_env_key"

  const DefaultBaseUrl := "https://stellaruserapiprod.azurewebsites.net/api/"
  const DefaultUsernameEnvKey := "APPSETTING_API_USERNAME_STELLAR_USER_API"
  const DefaultPasswordEnvKey := "APPSETTING_API_PASSWORD_STELLAR_USER_API"

  /** The three fields the constructor sets and nothing changes afterwards. */
  datatype Client = Client(baseUrl: string, usernameEnvKey: string, passwordEnvKey: string)

  /** The constructor, reading the configuration. */
  function New(config: map<string, string>): (c: Client)
    ensures BaseUrl.IsNormalized(c.baseUrl)
    ensures BaseUrlConfigKey in config ==> c.baseUrl == BaseUrl.Normalize(config[BaseUrlConfigKey])
    ensures BaseUrlConfigKey !in config ==> c.baseUrl == DefaultBaseUrl
    ensures UsernameKeyConfigKey in config ==> c.usernameEnvKey == config[UsernameKeyConfigKey]
    ensures UsernameKeyConfigKey !in config ==> c.usernameEnvKey == DefaultUsernameEnvKey
    ensures PasswordKeyConfigKey in config ==> c.passwordEnvKey == config[PasswordKeyConfigKey]
    ensures PasswordKeyConfigKey !in config ==> c.passwordEnvKey == DefaultPasswordEnvKey
  {
    BaseUrl.NormalizeFixesExactlyNormalized(DefaultBaseUrl);
    Client(
      BaseUrl.Normalize(Laravel.Config(config, BaseUrlConfigKey, DefaultBaseUrl)),
      Laravel.Config(config, UsernameKeyConfigKey, DefaultUsernameEnvKey),
      Laravel.Config(config, PasswordKeyConfigKey, DefaultPasswordEnvKey))
  }

  /** The variable name is truthy and names a set variable whose value is truthy. */
  predicate CredentialSet(env: map<string, string>, key: string) {
    key != "" && key != "0" && key in env && env[key] != "" && env[key] != "0"
  }

  /**
   * `username()` and `password()`: `$key ? getenv($key) ?: null : null`,
   * read through PHP truthiness.
   */
  function Credential(env: map<string, string>, key: string): (r: Option<string>)
    ensures r.Some? <==> CredentialSet(env, key)
    ensures r.Some? ==> r.value == env[key]
  {
    var v := if Php.Truthy(Php.Str(key)) then Php.Elvis(Php.GetEnv(env, key), Php.Null) else Php.Null;
    if v.Str? then Some(v.s) else None
  }

  /**
   * What `client()` sets up, stated over the environment: `retry(3, 200)`
   * (at most 3 attempts, 200 ms apart), and Basic authentication carrying the two
   * environment values exactly when both credentials are set.
   */
  predicate Configured(c: Client, env: map<string, string>, auth: Authorization, retryTimes: nat, retryDelay: Option<nat>) {
    && retryTimes == 3
    && retryDelay == Some(200)
    && (auth != NoAuth <==> CredentialSet(env, c.usernameEnvKey) && CredentialSet(env, c.passwordEnvKey))
    && (auth != NoAuth ==> auth == BasicAuth(Some(env[c.usernameEnvKey]), Some(env[c.passwordEnvKey])))
  }

  /** `client()`. */
  function Pending(c: Client, env: map<string, string>): (p: PendingRequest)
    ensures Configured(c, env, p.auth, p.retryTimes, p.retryDelay)
  {
    var username := Credential(env, c.usernameEnvKey);
    var password := Credential(env, c.passwordEnvKey);
    var request := PendingRequest(NoAuth, 3, Some(200));
    if username.Some? && password.Some? then request.(auth := BasicAuth(username, password)) else request
  }

  /** `create($data)`: POST to `createuser` with the payload as given. */
  function Create(c: Client, env: map<string, string>, data: map<string, string>): (r: Request)
    ensures r.verb == POST && r.url == c.baseUrl + "v1/usercontroller/createuser"
    ensures r.body == Fields(data)
    ensures Configured(c, env, r.auth, r.retryTimes, r.retryDelay)
  {
    Send(Pending(c, env), POST, c.baseUrl + "v1/usercontroller/createuser", Fields(data))
  }

  /** `sendResetPasswordLink($email, $confirmationCode)`: POST with exactly those two fields. */
  function SendResetPasswordLink(c: Client, env: map<string, string>, email: string, confirmationCode: string): (r: Request)
    ensures r.verb == POST && r.url == c.baseUrl + "v1/usercontroller/sendresetpasswordlink"
    ensures && r.body.Fields?
            && r.body.fields.Keys == {"email", "confirmation_code"}
            && r.body.fields["email"] == email
            && r.body.fields["confirmation_code"] == confirmationCode
    ensures Configured(c, env, r.auth, r.retryTimes, r.retryDelay)
  {
    Send(Pending(c, env), POST, c.baseUrl + "v1/usercontroller/sendresetpasswordlink",
      Fields(map["email" := email, "confirmation_code" := confirmationCode]))
  }

  /** `verifyResetPasswordConfirmationCode(...)`: POST with exactly the three fields. */
  function VerifyResetPasswordConfirmationCode(
    c: Client, env: map<string, string>, email: string, confirmationCode: string, newPassword: string): (r: Request)
    ensures r.verb == POST && r.url == c.baseUrl + "v1/usercontroller/verifyresetpasswordconfirmationcode"
    ensures && r.body.Fields?
            && r.body.fields.Keys == {"email", "confirmation_code", "new_password"}
            && r.body.fields["email"] == email
            && r.body.fields["confirmation_code"] == confirmationCode
            && r.body.fields["new_password"] == newPassword
    ensures Configured(c, env, r.auth, r.retryTimes, r.retryDelay)
  {
    Send(Pending(c, env), POST, c.baseUrl + "v1/usercontroller/verifyresetpasswordconfirmationcode",
      Fields(map["email" := email, "confirmation_code" := confirmationCode, "new_password" := newPassword]))
  }

  /** `patch($data)`: PATCH to `patch` with the payload as given. */
  function Patch(c: Client, env: map<string, string>, data: map<string, string>): (r: Request)
    ensures r.verb == PATCH && r.url == c.baseUrl + "v1/usercontroller/patch"
    ensures r.body == Fields(data)
    ensures Configured(c, env, r.auth, r.retryTimes, r.retryDelay)
  {
    Send(Pending(c, env), PATCH, c.baseUrl + "v1/usercontroller/patch", Fields(data))
  }

  /** `auth($data)`: POST to `login` with the payload as given. */
  function Auth(c: Client, env: map<string, string>, data: map<string, string>): (r: Request)
    ensures r.verb == POST && r.url == c.baseUrl + "v1/usercontroller/login"
    ensures r.body == Fields(data)
    ensures Configured(c, env, r.auth, r.retryTimes, r.retryDelay)
  {
    Send(Pending(c, env), POST, c.baseUrl + "v1/usercontroller/login", Fields(data))
  }

  /** `user($id)`: GET with the id appended to the path unescaped, and no body. */
  function User(c: Client, env: map<string, string>, id: string): (r: Request)
    ensures r.verb == GET && r.url == c.baseUrl + "v1/usercontroller/user/" + id
    ensures r.body == NoBody
    ensures Configured(c, env, r.auth, r.retryTimes, r.retryDelay)
  {
    Send(Pending(c, env), GET, c.baseUrl + "v1/usercontroller/user/" + id, NoBody)
  }

  /**
   * For a client with a normalised base URL (every client `New` builds), every
   * operation's URL continues the base URL with no `//` at the junction.
   */
  lemma UrlsJoinCleanly(
    c: Client, env: map<string, string>, data: map<string, string>,
    email: string, confirmationCode: string, newPassword: string, id: string)
    requires BaseUrl.IsNormalized(c.baseUrl)
    ensures BaseUrl.JoinedCleanly(c.baseUrl, Create(c, env, data).url)
    ensures BaseUrl.JoinedCleanly(c.baseUrl, SendResetPasswordLink(c, env, email, confirmationCode).url)
    ensures BaseUrl.JoinedCleanly(c.baseUrl, VerifyResetPasswordConfirmationCode(c, env, email, confirmationCode, newPassword).url)
    ensures BaseUrl.JoinedCleanly(c.baseUrl, Patch(c, env, data).url)
    ensures BaseUrl.JoinedCleanly(c.baseUrl, Auth(c, env, data).url)
    ensures BaseUrl.JoinedCleanly(c.baseUrl, User(c, env, id).url)
  {
  }
}
