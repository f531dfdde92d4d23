/**
 * How the two client classes relate: the operations they share build the
 * same request line and body from the same base URL, and they part ways on
 * which configuration keys name the credential variables, on the base URL
 * override, on authorisation when credentials are missing, and on the delay
 * between retries.
 */
module ClientComparison {
  import opened Wrappers
  import opened Http
  import UserApiClient
  import UserService

  /** From the same base URL, every shared operation has the same verb, URL and body in both classes. */
  lemma SharedOperationsAgree(
    c: UserApiClient.Client, s: UserService.Service, env: map<string, string>, data: map<string, string>,
    email: string, confirmationCode: string, newPassword: string, id: string)
    requires c.baseUrl == s.baseUrl
    ensures var (a, b) := (UserApiClient.Create(c, env, data), UserService.Create(s, env, data));
      a.verb == b.verb && a.url == b.url && a.body == b.body
    ensures var (a, b) := (UserApiClient.SendResetPasswordLink(c, env, email, confirmationCode),
                           UserService.SendResetPasswordLink(s, env, email, confirmationCode));
      a.verb == b.verb && a.url == b.url && a.body == b.body
    ensures var (a, b) := (UserApiClient.VerifyResetPasswordConfirmationCode(c, env, email, confirmationCode, newPassword),
                           UserService.VerifyResetPasswordConfirmationCode(s, env, email, confirmationCode, newPassword));
      a.verb == b.verb && a.url == b.url && a.body == b.body
    ensures var (a, b) := (UserApiClient.Patch(c, env, data), UserService.Patch(s, env, data));
      a.verb == b.verb && a.url == b.url && a.body == b.body
    ensures var (a, b) := (UserApiClient.Auth(c, env, data), UserService.Auth(s, env, data));
      a.verb == b.verb && a.url == b.url && a.body == b.body
    ensures var (a, b) := (UserApiClient.User(c, env, id), UserService.User(s, env, id));
      a.verb == b.verb && a.url == b.url && a.body == b.body
  {
  }

  /**
   * Without an override (a `null`, `""` or `"0"` argument) the service takes
   * its base URL from the same configuration key and default as the client.
   */
  lemma BaseUrlAgreesWithoutOverride(baseUrl: Option<string>, config: map<string, string>)
    requires baseUrl == None || baseUrl.value == "" || baseUrl.value == "0"
    ensures UserService.New(baseUrl, config).baseUrl == UserApiClient.New(config).baseUrl
  {
  }

  /** The two classes read the credential variable names from four distinct configuration keys. */
  lemma CredentialKeyNamesDiffer()
    ensures UserApiClient.UsernameKeyConfigKey != UserService.UsernameKeyConfigKey
    ensures UserApiClient.UsernameKeyConfigKey != UserService.PasswordKeyConfigKey
    ensures UserApiClient.PasswordKeyConfigKey != UserService.UsernameKeyConfigKey
    ensures UserApiClient.PasswordKeyConfigKey != UserService.PasswordKeyConfigKey
  {
    assert |UserService.UsernameKeyConfigKey| != |UserApiClient.UsernameKeyConfigKey|;
    assert |UserService.UsernameKeyConfigKey| != |UserApiClient.PasswordKeyConfigKey|;
    assert |UserService.PasswordKeyConfigKey| != |UserApiClient.UsernameKeyConfigKey|;
    assert |UserService.PasswordKeyConfigKey| != |UserApiClient.PasswordKeyConfigKey|;
  }

  /** Setting the client's two keys, to any values, leaves the service on its default names. */
  lemma ClientKeysLeaveServiceDefaults(baseUrl: Option<string>, config: map<string, string>, username: string, password: string)
    requires UserService.UsernameKeyConfigKey !in config && UserService.PasswordKeyConfigKey !in config
    ensures var clientConfig := config[UserApiClient.UsernameKeyConfigKey := username][UserApiClient.PasswordKeyConfigKey := password];
      && UserApiClient.New(clientConfig).usernameEnvKey == username
      && UserApiClient.New(clientConfig).passwordEnvKey == password
      && UserService.New(baseUrl, clientConfig).usernameEnvKey == UserService.DefaultUsernameEnvKey
      && UserService.New(baseUrl, clientConfig).passwordEnvKey == UserService.DefaultPasswordEnvKey
  {
    CredentialKeyNamesDiffer();
    var clientConfig := config[UserApiClient.UsernameKeyConfigKey := username][UserApiClient.PasswordKeyConfigKey := password];
    assert UserApiClient.UsernameKeyConfigKey[13] != UserApiClient.PasswordKeyConfigKey[13];
    assert clientConfig[UserApiClient.UsernameKeyConfigKey] == username;
    assert UserService.UsernameKeyConfigKey !in clientConfig && UserService.PasswordKeyConfigKey !in clientConfig;
  }

  /** Setting the service's two keys, to any values, leaves the client on its default names. */
  lemma ServiceKeysLeaveClientDefaults(baseUrl: Option<string>, config: map<string, string>, username: string, password: string)
    requires UserApiClient.UsernameKeyConfigKey !in config && UserApiClient.PasswordKeyConfigKey !in config
    ensures var serviceConfig := config[UserService.UsernameKeyConfigKey := username][UserService.PasswordKeyConfigKey := password];
      && UserService.New(baseUrl, serviceConfig).usernameEnvKey == username
      && UserService.New(baseUrl, serviceConfig).passwordEnvKey == password
      && UserApiClient.New(serviceConfig).usernameEnvKey == UserApiClient.DefaultUsernameEnvKey
      && UserApiClient.New(serviceConfig).passwordEnvKey == UserApiClient.DefaultPasswordEnvKey
  {
    CredentialKeyNamesDiffer();
    var serviceConfig := config[UserService.UsernameKeyConfigKey := username][UserService.PasswordKeyConfigKey := password];
    assert UserService.UsernameKeyConfigKey[13] != UserService.PasswordKeyConfigKey[13];
    assert serviceConfig[UserService.UsernameKeyConfigKey] == username;
    assert UserApiClient.UsernameKeyConfigKey !in serviceConfig && UserApiClient.PasswordKeyConfigKey !in serviceConfig;
  }

  /**
   * Reading the same variables, the two classes attach the same Basic
   * authentication when both credentials are set; when either is missing
   * or falsy, the client sends no authentication while the service still
   * attaches whatever `env()` returned.
   */
  lemma AuthorizationPolicies(c: UserApiClient.Client, s: UserService.Service, env: map<string, string>)
    requires c.usernameEnvKey == s.usernameEnvKey && c.passwordEnvKey == s.passwordEnvKey
    ensures UserApiClient.CredentialSet(env, c.usernameEnvKey) && UserApiClient.CredentialSet(env, c.passwordEnvKey) ==>
      UserApiClient.Pending(c, env).auth == UserService.Pending(s, env).auth
    ensures !(UserApiClient.CredentialSet(env, c.usernameEnvKey) && UserApiClient.CredentialSet(env, c.passwordEnvKey)) ==>
      UserApiClient.Pending(c, env).auth == NoAuth && UserService.Pending(s, env).auth.BasicAuth?
  {
  }

  /** Both pass `retry` 3 (at most 3 attempts); only the client asks for 200 ms between attempts. */
  lemma RetryPolicies(c: UserApiClient.Client, s: UserService.Service, env: map<string, string>)
    ensures UserApiClient.Pending(c, env).retryTimes == UserService.Pending(s, env).retryTimes == 3
    ensures UserApiClient.Pending(c, env).retryDelay == Some(200)
    ensures UserService.Pending(s, env).retryDelay == None
  {
  }
}
