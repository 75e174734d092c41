/** The frontend's API configuration (fe/src/config/index.ts): the base URL, the endpoint table,
    `getUrl`, and the request headers and credentials mode every call uses.

    `NEXT_PUBLIC_API_URL`, read once when the module loads, is the `env` argument. */
module FrontendConfig {
  import opened Common
  import opened Strings

  const DefaultApiUrl: string := "http://localhost:3000"

  /** `API_URL`: the environment value unless it is unset or empty, then the local default. */
  function ApiUrl(env: Option<string>): (url: string)
    ensures url != ""
    ensures Present(env) ==> url == env.value
    ensures !Present(env) ==> url == DefaultApiUrl
  {
    if Present(env) then env.value else DefaultApiUrl
  }

  /** `config.api.endpoints`: category, then entry. */
  const Endpoints: map<string, map<string, string>> :=
    map["auth" := map["login" := "/api/auth/login",
                      "register" := "/api/auth/register",
                      "refresh" := "/api/auth/refresh"],
        "chat" := map["rooms" := "/api/chat/rooms",
                      "join" := "/api/chat/join",
                      "leave" := "/api/chat/leave"]]

  /** The `EndpointPath` type: the keys `getUrl` accepts, a category and one of its entries joined
      by a dot (`auth.login`, `auth.register`, `auth.refresh`, `chat.rooms`, `chat.join`,
      `chat.leave`). */
  const EndpointKeys: set<string> :=
    set category, entry | category in Endpoints && entry in Endpoints[category] :: category + "." + entry

  /** A dotted key splits back into its two parts. */
  lemma {:induction false} SplitKey(category: string, entry: string)
    requires '.' !in category && '.' !in entry
    ensures Split(category + "." + entry, '.') == [category, entry]
  {
    assert category + "." + entry == category + ['.'] + entry;
    SplitAfterSegment(category, entry, '.');
    SplitNoSeparator(entry, '.');
  }

  /** Each accepted key splits on `.` into a category of the table and one of its entries. */
  lemma KeySplits(path: string)
    requires path in EndpointKeys
    ensures var parts := Split(path, '.');
            && |parts| == 2 && parts[0] in Endpoints && parts[1] in Endpoints[parts[0]]
            && path == parts[0] + "." + parts[1]
  {
    var category, entry :| category in Endpoints && entry in Endpoints[category] && path == category + "." + entry;
    assert '.' !in category && '.' !in entry;
    SplitKey(category, entry);
  }

  /** Every path in the table is `/api/` followed by its category, a slash and its entry. */
  lemma TableShape(category: string, entry: string)
    requires category in Endpoints && entry in Endpoints[category]
    ensures Endpoints[category][entry] == "/api/" + category + "/" + entry
  {
    if category == "auth" {
      AuthShape(entry);
    } else {
      ChatShape(entry);
    }
  }

  lemma AuthShape(entry: string)
    requires entry in Endpoints["auth"]
    ensures Endpoints["auth"][entry] == "/api/" + "auth" + "/" + entry
  {
    if entry == "login" {
      assert "/api/" + "auth" + "/" + "login" == "/api/auth/login";
    } else if entry == "register" {
      assert "/api/" + "auth" + "/" + "register" == "/api/auth/register";
    } else {
      assert "/api/" + "auth" + "/" + "refresh" == "/api/auth/refresh";
    }
  }

  lemma ChatShape(entry: string)
    requires entry in Endpoints["chat"]
    ensures Endpoints["chat"][entry] == "/api/" + "chat" + "/" + entry
  {
    if entry == "rooms" {
      assert "/api/" + "chat" + "/" + "rooms" == "/api/chat/rooms";
    } else if entry == "join" {
      assert "/api/" + "chat" + "/" + "join" == "/api/chat/join";
    } else {
      assert "/api/" + "chat" + "/" + "leave" == "/api/chat/leave";
    }
  }

  /** No two entries of the table share a path. */
  lemma TableInjective(c1: string, e1: string, c2: string, e2: string)
    requires c1 in Endpoints && e1 in Endpoints[c1] && c2 in Endpoints && e2 in Endpoints[c2]
    requires c1 != c2 || e1 != e2
    ensures Endpoints[c1][e1] != Endpoints[c2][e2]
  {
  }

  /** `getUrl(path, fullUrl)`: the key is split on `.` into category and entry, looked up in the
      table, and prefixed with the base URL when `fullUrl` is set, as it is by default. The result is `/api/`, the
      category, a slash and the entry, after the base URL when one is asked for. */
  function GetUrl(env: Option<string>, path: string, fullUrl: bool := true): (url: string)
    requires path in EndpointKeys
    ensures var parts := Split(path, '.');
            && |parts| == 2
            && (!fullUrl ==> url == "/api/" + parts[0] + "/" + parts[1])
            && (fullUrl ==> url == ApiUrl(env) + ("/api/" + parts[0] + "/" + parts[1]))
  {
    var parts := Split(path, '.');
    KeySplits(path);
    TableShape(parts[0], parts[1]);
    var endpointPath := Endpoints[parts[0]][parts[1]];
    if fullUrl then ApiUrl(env) + endpointPath else endpointPath
  }

  /** The full URL is the base URL followed by the path alone. */
  lemma FullUrlIsBasePlusPath(env: Option<string>, path: string)
    requires path in EndpointKeys
    ensures GetUrl(env, path) == ApiUrl(env) + GetUrl(env, path, false)
    ensures !Present(env) ==> GetUrl(env, path) == DefaultApiUrl + GetUrl(env, path, false)
  {
  }

  /** The key `c.e` names the path `/api/c/e`. */
  lemma {:induction false} PathFollowsKey(env: Option<string>, category: string, entry: string)
    requires category + "." + entry in EndpointKeys && '.' !in category && '.' !in entry
    ensures GetUrl(env, category + "." + entry, false) == "/api/" + category + "/" + entry
  {
    SplitKey(category, entry);
    KeySplits(category + "." + entry);
    TableShape(category, entry);
  }

  /** The six keys name six different paths, all under `/api/`. */
  lemma PathsDistinct(env: Option<string>, p: string, q: string)
    requires p in EndpointKeys && q in EndpointKeys && p != q
    ensures GetUrl(env, p, false) != GetUrl(env, q, false)
    ensures |GetUrl(env, p, false)| >= 5 && GetUrl(env, p, false)[..5] == "/api/"
  {
    KeySplits(p);
    KeySplits(q);
    var pp, qp := Split(p, '.'), Split(q, '.');
    TableInjective(pp[0], pp[1], qp[0], qp[1]);
    TableShape(pp[0], pp[1]);
  }

  /** The key `auth.refresh` is accepted. */
  lemma RefreshKeyAccepted(path: string)
    requires path == "auth.refresh"
    ensures path in EndpointKeys && path == "auth" + "." + "refresh"
  {
    var category, entry := "auth", "refresh";
    assert category + "." + entry == path;
    assert category in Endpoints && entry in Endpoints[category];
  }

  /** The key `auth.refresh` names `/api/auth/refresh`. */
  lemma RefreshUrl(env: Option<string>, path: string)
    requires path == "auth.refresh"
    ensures path in EndpointKeys
    ensures GetUrl(env, path, false) == "/api/auth/refresh"
  {
    RefreshKeyAccepted(path);
    PathFollowsKey(env, "auth", "refresh");
    assert "/api/" + "auth" + "/" + "refresh" == "/api/auth/refresh";
  }

  /** By default its full URL is under the local backend. */
  lemma DefaultRefreshUrl(path: string)
    requires path == "auth.refresh"
    ensures path in EndpointKeys
    ensures GetUrl(None, path) == "http://localhost:3000/api/auth/refresh"
  {
    RefreshUrl(None, path);
    FullUrlIsBasePlusPath(None, path);
    assert DefaultApiUrl + "/api/auth/refresh" == "http://localhost:3000/api/auth/refresh";
  }

  datatype Headers = Headers(contentType: string, accept: string, origin: string)

  /** `getHeaders()`: the fixed headers of every request. */
  function GetHeaders(): Headers
  {
    Headers("application/json", "application/json", "http://localhost:3001")
  }

  /** `getCredentials()`: cookies are sent with every request. */
  function GetCredentials(): string
  {
    "include"
  }

  /** The requests send and accept JSON, claim the frontend's own origin, and include cookies. */
  lemma RequestDefaults()
    ensures GetHeaders().contentType == GetHeaders().accept == "application/json"
    ensures GetHeaders().origin == "http://localhost:3001"
    ensures GetCredentials() == "include"
  {
  }
}
