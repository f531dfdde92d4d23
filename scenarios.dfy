/** Concrete requests for particular configurations and environments. */
module Scenarios {
  import opened Wrappers
  import opened Http
  import BaseUrl
  import UserApiClient
  import UserService

  /** On the default base URL, `user($id)` fetches the production user URL with the id appended. */
  lemma UserUrlOnDefaultBase(c: UserApiClient.Client, env: map<string, string>, id: string)
    requires c.baseUrl == UserApiClient.DefaultBaseUrl
    ensures UserApiClient.User(c, env, id).url == "https://stellaruserapiprod.azurewebsites.net/api/v1/usercontroller/user/" + id
  {
  }

  /** With no configuration, `user("42")` fetches the production URL for user 42 with no body. */
  lemma DefaultUserById(env: map<string, string>)
    ensures var r := UserApiClient.User(UserApiClient.New(map[]), env, "42");
      && r.verb == GET
      && r.url == "https://stellaruserapiprod.azurewebsites.net/api/v1/usercontroller/user/42"
      && r.body == NoBody
  {
    UserUrlOnDefaultBase(UserApiClient.New(map[]), env, "42");
    assert "https://stellaruserapiprod.azurewebsites.net/api/v1/usercontroller/user/" + "42"
        == "https://stellaruserapiprod.azurewebsites.net/api/v1/usercontroller/user/42";
  }

  /** An override with several trailing `/` keeps exactly one. */
  lemma OverrideWithTrailingSeparators(config: map<string, string>)
    ensures UserService.New(Some("https://example.test/api///"), config).baseUrl == "https://example.test/api/"
  {
    assert "https://example.test/api///" == "https://example.test/api" + seq(3, _ => '/');
    BaseUrl.NormalizeIgnoresTrailingSeparators("https://example.test/api", 3);
    BaseUrl.NormalizeAppendsOne("https://example.test/api");
  }

  /** A password of `"0"` counts as missing for the client, which then sends no authentication. */
  lemma ZeroPasswordDisablesClientAuth(data: map<string, string>)
    ensures var env := map[UserApiClient.DefaultUsernameEnvKey := "api", UserApiClient.DefaultPasswordEnvKey := "0"];
      && UserApiClient.Create(UserApiClient.New(map[]), env, data).auth == NoAuth
      && UserService.Create(UserService.New(None, map[]), env, data).auth == BasicAuth(Some("api"), Some("0"))
  {
  }

  /** With both variables set, the client authenticates with exactly their values. */
  lemma ClientAuthenticatesWithEnvironment(data: map<string, string>)
    ensures var env := map[UserApiClient.DefaultUsernameEnvKey := "api", UserApiClient.DefaultPasswordEnvKey := "secret"];
      UserApiClient.Auth(UserApiClient.New(map[]), env, data).auth == BasicAuth(Some("api"), Some("secret"))
  {
  }
}
