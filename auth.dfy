/**
 * The browser's session store (auth.js): the identity provider's
 * implicit-grant URLs (section 4.2.1 of RFC 6749), tokens read from the
 * redirect fragment (section 4.2.2 of RFC 6749), their two localStorage keys, the expiry
 * check on the id token's `exp` claim (section 4.1.4 of RFC 7519) and the
 * page chosen after login.
 *
 * encodeURIComponent, URLSearchParams and the JWT payload decoding
 * JSON.parse(atob(token.split('.')[1])) are inputs: a string function, an
 * already split fragment, and a decoder that yields None wherever the
 * source's try block would throw.
 */
module Auth {
  import opened Wrappers

  datatype Config = Config(cognitoDomain: string, clientId: string, origin: string)

  const IdTokenKey: string := "id_token"
  const AccessTokenKey: string := "access_token"

  /** Things the page does to the browser, in the order it does them. */
  datatype Effect =
    | SetItem(key: string, value: string)
    | RemoveItem(key: string)
    | ReplaceState(path: string)
    | Navigate(url: string)

  datatype Tokens = Tokens(idToken: Option<string>, accessToken: Option<string>)

  /** The JWT payload fields the page reads; a missing or non-numeric exp is None. */
  datatype Claims = Claims(exp: Option<int>, email: Option<string>, name: Option<string>, sub: Option<string>)

  datatype UserInfo = UserInfo(email: Option<string>, name: Option<string>, sub: Option<string>)

  function RedirectUri(cfg: Config): string {
    cfg.origin + "/index.html"
  }

  /** URLSearchParams.get: the value of the first pair with this name. */
  function FirstParam(params: seq<(string, string)>, name: string): (r: Option<string>)
    ensures r.Some? <==> exists i :: 0 <= i < |params| && params[i].0 == name
    ensures r.Some? ==> exists i :: 0 <= i < |params| && params[i] == (name, r.value) && forall j :: 0 <= j < i ==> params[j].0 != name
  {
    if params == [] then None
    else if params[0].0 == name then Some(params[0].1)
    else
      var r := FirstParam(params[1..], name);
      assert forall i :: 0 <= i < |params| - 1 ==> params[1..][i] == params[i + 1];
      r
  }

  /** name=value pairs joined by '&', values written as given. */
  function QueryString(params: seq<(string, string)>): string {
    if params == [] then ""
    else if |params| == 1 then params[0].0 + "=" + params[0].1
    else params[0].0 + "=" + params[0].1 + "&" + QueryString(params[1..])
  }

  /** The index of the first c in s, or |s| when there is none. */
  function IndexOf(s: string, c: char): (i: nat)
    ensures i <= |s|
    ensures i < |s| ==> s[i] == c
    ensures forall j :: 0 <= j < i ==> s[j] != c
  {
    if s == [] then 0
    else if s[0] == c then 0
    else 1 + IndexOf(s[1..], c)
  }

  /** A first c right after a c-free prefix is found at the end of that prefix. */
  lemma IndexAfter(a: string, c: char, b: string)
    requires c !in a
    ensures IndexOf(a + [c] + b, c) == |a|
  {
    assert (a + [c] + b)[|a|] == c;
  }

  /** One `name=value` segment, split at its first '='; a segment without '=' is a name with value ''. */
  function ParsePair(segment: string): (string, string) {
    var i := IndexOf(segment, '=');
    if i < |segment| then (segment[..i], segment[i + 1..]) else (segment, "")
  }

  /** A query string read back as its name/value pairs, segment by segment between the '&'s. */
  function SplitPairs(query: string): seq<(string, string)>
    decreases |query|
  {
    if query == "" then []
    else
      var i := IndexOf(query, '&');
      if i < |query| then [ParsePair(query[..i])] + SplitPairs(query[i + 1..])
      else [ParsePair(query)]
  }

  /** Pairs that a query string can carry unambiguously. */
  predicate Separable(params: seq<(string, string)>) {
    forall i :: 0 <= i < |params| ==> SeparablePair(params[i].0, params[i].1)
  }

  /** A segment written as name=value reads back as the pair. */
  lemma ParsePairWritten(name: string, value: string)
    requires '=' !in name
    ensures ParsePair(name + "=" + value) == (name, value)
  {
    var seg := name + "=" + value;
    IndexAfter(name, '=', value);
    assert seg[..|name|] == name;
    assert seg[|name| + 1..] == value;
  }

  /** The pairs QueryString writes are the pairs SplitPairs reads back. */
  lemma {:induction false} QueryStringRoundTrip(params: seq<(string, string)>)
    requires Separable(params)
    ensures SplitPairs(QueryString(params)) == params
    decreases |params|
  {
    if params == [] {
    } else {
      var (name, value) := params[0];
      var seg := name + "=" + value;
      ParsePairWritten(name, value);
      assert '&' !in seg by {
        forall k | 0 <= k < |seg| ensures seg[k] != '&' {
          if k < |name| { assert seg[k] == name[k]; }
          else if k > |name| { assert seg[k] == value[k - |name| - 1]; }
        }
      }
      if |params| == 1 {
        assert QueryString(params) == seg;
        assert IndexOf(seg, '&') == |seg|;
      } else {
        var rest := QueryString(params[1..]);
        var q := seg + "&" + rest;
        assert QueryString(params) == q;
        IndexAfter(seg, '&', rest);
        assert q[..|seg|] == seg;
        assert q[|seg| + 1..] == rest;
        QueryStringRoundTrip(params[1..]);
      }
    }
  }

  /** The authorization request: client, implicit grant, scopes, where to come back. */
  function LoginParams(cfg: Config, encodeUriComponent: string -> string): (ps: seq<(string, string)>)
    ensures FirstParam(ps, "client_id") == Some(cfg.clientId)
    ensures FirstParam(ps, "response_type") == Some("token")
    ensures FirstParam(ps, "scope") == Some("email+openid+profile")
    ensures FirstParam(ps, "redirect_uri") == Some(encodeUriComponent(RedirectUri(cfg)))
  {
    var ps := [("client_id", cfg.clientId), ("response_type", "token"),
               ("scope", "email+openid+profile"), ("redirect_uri", encodeUriComponent(RedirectUri(cfg)))];
    assert ps[1..][1..] == ps[2..] && ps[2..][1..] == ps[3..];
    assert FirstParam(ps[2..], "scope") == Some("email+openid+profile");
    assert FirstParam(ps[3..], "redirect_uri") == Some(encodeUriComponent(RedirectUri(cfg)));
    assert FirstParam(ps[2..], "redirect_uri") == FirstParam(ps[3..], "redirect_uri");
    ps
  }

  /** A name/value pair a query string can carry unambiguously. */
  predicate SeparablePair(name: string, value: string) {
    name != "" && '=' !in name && '&' !in name && '&' !in value
  }

  /** The fixed pairs of the login URL contain no separator. */
  lemma FixedPairsSeparable()
    ensures SeparablePair("response_type", "token")
    ensures SeparablePair("scope", "email+openid+profile")
  {
  }

  /** The names the two URLs pair with a configured or encoded value contain no separator. */
  lemma ParamNamesSeparable(v: string)
    requires '&' !in v
    ensures SeparablePair("client_id", v) && SeparablePair("redirect_uri", v) && SeparablePair("logout_uri", v)
  {
  }

  lemma LoginParamsSeparable(cfg: Config, encodeUriComponent: string -> string)
    requires '&' !in cfg.clientId && '&' !in encodeUriComponent(RedirectUri(cfg))
    ensures Separable(LoginParams(cfg, encodeUriComponent))
  {
    FixedPairsSeparable();
    ParamNamesSeparable(cfg.clientId);
    ParamNamesSeparable(encodeUriComponent(RedirectUri(cfg)));
    var ps := LoginParams(cfg, encodeUriComponent);
    assert forall i :: 0 <= i < |ps| ==> SeparablePair(ps[i].0, ps[i].1);
  }

  /** The provider's authorize endpoint carrying LoginParams. */
  function GetLoginUrl(cfg: Config, encodeUriComponent: string -> string): (url: string)
  {
    "https://" + cfg.cognitoDomain + LoginPath + QueryString(LoginParams(cfg, encodeUriComponent))
  }

  const LoginPath: string := "/oauth2/authorize?"
  const LogoutPath: string := "/logout?"

  /**
   * The login URL is the authorize endpoint followed by a query string that
   * reads back as LoginParams: the client id, the implicit grant, the scopes
   * and the encoded redirect URI. encodeURIComponent never writes '&'.
   */
  lemma LoginUrlCarries(cfg: Config, encodeUriComponent: string -> string)
    requires '&' !in cfg.clientId && '&' !in encodeUriComponent(RedirectUri(cfg))
    ensures var url, prefix := GetLoginUrl(cfg, encodeUriComponent), "https://" + cfg.cognitoDomain + LoginPath;
      && |prefix| <= |url| && url[..|prefix|] == prefix
      && var ps := SplitPairs(url[|prefix|..]);
      && ps == LoginParams(cfg, encodeUriComponent)
      && FirstParam(ps, "client_id") == Some(cfg.clientId)
      && FirstParam(ps, "response_type") == Some("token")
      && FirstParam(ps, "scope") == Some("email+openid+profile")
      && FirstParam(ps, "redirect_uri") == Some(encodeUriComponent(RedirectUri(cfg)))
  {
    var ps := LoginParams(cfg, encodeUriComponent);
    var prefix := "https://" + cfg.cognitoDomain + LoginPath;
    assert GetLoginUrl(cfg, encodeUriComponent)[|prefix|..] == QueryString(ps);
    LoginParamsSeparable(cfg, encodeUriComponent);
    QueryStringRoundTrip(ps);
  }

  function LogoutParams(cfg: Config, encodeUriComponent: string -> string): (ps: seq<(string, string)>)
    ensures FirstParam(ps, "client_id") == Some(cfg.clientId)
    ensures FirstParam(ps, "logout_uri") == Some(encodeUriComponent(RedirectUri(cfg)))
  {
    [("client_id", cfg.clientId), ("logout_uri", encodeUriComponent(RedirectUri(cfg)))]
  }

  /** The provider's logout endpoint carrying LogoutParams. */
  function GetLogoutUrl(cfg: Config, encodeUriComponent: string -> string): (url: string)
  {
    "https://" + cfg.cognitoDomain + LogoutPath + QueryString(LogoutParams(cfg, encodeUriComponent))
  }

  /** The logout URL's query string reads back as LogoutParams: the client id and the encoded logout URI. */
  lemma LogoutUrlCarries(cfg: Config, encodeUriComponent: string -> string)
    requires '&' !in cfg.clientId && '&' !in encodeUriComponent(RedirectUri(cfg))
    ensures var url, prefix := GetLogoutUrl(cfg, encodeUriComponent), "https://" + cfg.cognitoDomain + LogoutPath;
      && |prefix| <= |url| && url[..|prefix|] == prefix
      && var ps := SplitPairs(url[|prefix|..]);
      && ps == LogoutParams(cfg, encodeUriComponent)
      && FirstParam(ps, "client_id") == Some(cfg.clientId)
      && FirstParam(ps, "logout_uri") == Some(encodeUriComponent(RedirectUri(cfg)))
  {
    var ps := LogoutParams(cfg, encodeUriComponent);
    var prefix := "https://" + cfg.cognitoDomain + LogoutPath;
    assert GetLogoutUrl(cfg, encodeUriComponent)[|prefix|..] == QueryString(ps);
    ParamNamesSeparable(cfg.clientId);
    ParamNamesSeparable(encodeUriComponent(RedirectUri(cfg)));
    QueryStringRoundTrip(ps);
  }

  /** What getProfile did: not loaded, threw, or returned a profile or null. */
  datatype ProfileProbe = NotLoaded | Threw | Returned(found: bool)

  /** Onboarding only when the lookup answered "no profile"; home otherwise. */
  function PostLoginRoute(probe: ProfileProbe): (page: string)
    ensures page == "onboarding.html" <==> probe == Returned(false)
    ensures page == "home.html" <==> probe != Returned(false)
  {
    match probe
    case NotLoaded => "home.html"
    case Threw => "home.html"
    case Returned(found) => if found then "home.html" else "onboarding.html"
  }

  /** A present, non-empty value: JavaScript truthiness of getItem's or get's result. */
  predicate Truthy(v: Option<string>) {
    v.Some? && v.value != ""
  }

  class Browser {
    const config: Config
    const encodeUriComponent: string -> string
    /** window.location.pathname */
    const pathname: string
    /** localStorage */
    var storage: map<string, string>
    /** window.location.hash after '#', split into name/value pairs */
    var fragment: seq<(string, string)>
    var effects: seq<Effect>

    constructor (config: Config, encodeUriComponent: string -> string, pathname: string,
                 storage: map<string, string>, fragment: seq<(string, string)>)
      ensures this.config == config && this.encodeUriComponent == encodeUriComponent && this.pathname == pathname
      ensures this.storage == storage && this.fragment == fragment && effects == []
    {
      this.config := config;
      this.encodeUriComponent := encodeUriComponent;
      this.pathname := pathname;
      this.storage := storage;
      this.fragment := fragment;
      effects := [];
    }

    /** localStorage.getItem on both keys; null when a key is absent. */
    function GetTokens(): (t: Tokens)
      reads this
      ensures t.idToken.Some? <==> IdTokenKey in storage
      ensures t.accessToken.Some? <==> AccessTokenKey in storage
      ensures t.idToken.Some? ==> t.idToken.value == storage[IdTokenKey]
      ensures t.accessToken.Some? ==> t.accessToken.value == storage[AccessTokenKey]
    {
      Tokens(
        if IdTokenKey in storage then Some(storage[IdTokenKey]) else None,
        if AccessTokenKey in storage then Some(storage[AccessTokenKey]) else None)
    }

    /** Live session: an id token whose exp, in milliseconds, is still ahead of nowMs. */
    function IsAuthenticated(nowMs: int, decode: string -> Option<Claims>): (live: bool)
      reads this
      ensures !Truthy(GetTokens().idToken) ==> !live
      ensures Truthy(GetTokens().idToken) ==>
        (live <==> decode(storage[IdTokenKey]).Some? && decode(storage[IdTokenKey]).value.exp.Some?
                   && nowMs < decode(storage[IdTokenKey]).value.exp.value * 1000)
    {
      var idToken := GetTokens().idToken;
      if !Truthy(idToken) then false
      else
        match decode(idToken.value)
        case None => false
        case Some(payload) =>
          match payload.exp
          case None => false
          case Some(exp) => nowMs < exp * 1000
    }

    /** email, name and sub of the id token, or null when there is none or it does not decode. */
    function GetUserInfo(decode: string -> Option<Claims>): (info: Option<UserInfo>)
      reads this
      ensures info.None? <==> !Truthy(GetTokens().idToken) || decode(storage[IdTokenKey]).None?
      ensures info.Some? ==>
        var c := decode(storage[IdTokenKey]).value; info.value == UserInfo(c.email, c.name, c.sub)
    {
      var idToken := GetTokens().idToken;
      if !Truthy(idToken) then None
      else
        match decode(idToken.value)
        case None => None
        case Some(payload) => Some(UserInfo(payload.email, payload.name, payload.sub))
    }

    /** Both keys are overwritten, id token first. */
    method SaveTokens(idToken: string, accessToken: string)
      modifies this`storage, this`effects
      ensures storage == old(storage)[IdTokenKey := idToken][AccessTokenKey := accessToken]
      ensures effects == old(effects) + [SetItem(IdTokenKey, idToken), SetItem(AccessTokenKey, accessToken)]
      ensures GetTokens() == Tokens(Some(idToken), Some(accessToken))
    {
      storage := storage[IdTokenKey := idToken];
      effects := effects + [SetItem(IdTokenKey, idToken)];
      storage := storage[AccessTokenKey := accessToken];
      effects := effects + [SetItem(AccessTokenKey, accessToken)];
    }

    /**
     * Tokens from the redirect fragment: stored, and the fragment dropped from
     * the address, only when both are non-empty; otherwise nothing is written.
     */
    method ParseTokensFromUrl() returns (found: bool)
      modifies this`storage, this`fragment, this`effects
      ensures found <==> Truthy(FirstParam(old(fragment), "id_token")) && Truthy(FirstParam(old(fragment), "access_token"))
      ensures found ==>
        var idToken, accessToken := FirstParam(old(fragment), "id_token").value, FirstParam(old(fragment), "access_token").value;
        && storage == old(storage)[IdTokenKey := idToken][AccessTokenKey := accessToken]
        && GetTokens() == Tokens(Some(idToken), Some(accessToken))
        && effects == old(effects) + [SetItem(IdTokenKey, idToken), SetItem(AccessTokenKey, accessToken), ReplaceState(pathname)]
        && fragment == []
      ensures !found ==> storage == old(storage) && fragment == old(fragment) && effects == old(effects)
    {
      var idToken := FirstParam(fragment, "id_token");
      var accessToken := FirstParam(fragment, "access_token");
      if Truthy(idToken) && Truthy(accessToken) {
        SaveTokens(idToken.value, accessToken.value);
        fragment := [];
        effects := effects + [ReplaceState(pathname)];
        found := true;
      } else {
        found := false;
      }
    }

    /** Both keys are removed before the page navigates to the provider's logout. */
    method Logout()
      modifies this`storage, this`effects
      ensures storage == old(storage) - {IdTokenKey, AccessTokenKey}
      ensures effects == old(effects) +
        [RemoveItem(IdTokenKey), RemoveItem(AccessTokenKey), Navigate(GetLogoutUrl(config, encodeUriComponent))]
      ensures GetTokens() == Tokens(None, None)
    {
      storage := storage - {IdTokenKey};
      effects := effects + [RemoveItem(IdTokenKey)];
      storage := storage - {AccessTokenKey};
      effects := effects + [RemoveItem(AccessTokenKey)];
      effects := effects + [Navigate(GetLogoutUrl(config, encodeUriComponent))];
    }

    method Login()
      modifies this`effects
      ensures effects == old(effects) + [Navigate(GetLoginUrl(config, encodeUriComponent))]
    {
      effects := effects + [Navigate(GetLoginUrl(config, encodeUriComponent))];
    }

    /** After login the page goes to onboarding or home, as PostLoginRoute decides. */
    method HandlePostLoginRedirect(probe: ProfileProbe)
      modifies this`effects
      ensures effects == old(effects) + [Navigate(PostLoginRoute(probe))]
    {
      effects := effects + [Navigate(PostLoginRoute(probe))];
    }
  }

  /** Reading the fragment again after a successful read finds nothing and writes nothing. */
  method ParseTwice(b: Browser) returns (first: bool, second: bool)
    modifies b
    ensures first ==> !second
    ensures first ==> b.GetTokens() == Tokens(FirstParam(old(b.fragment), "id_token"), FirstParam(old(b.fragment), "access_token"))
    ensures !first ==> b.storage == old(b.storage) && b.effects == old(b.effects)
  {
    first := b.ParseTokensFromUrl();
    second := b.ParseTokensFromUrl();
    assert first ==> FirstParam(b.fragment, "id_token") == None;
  }

  /** After logout no clock and no decoder make the session live. */
  lemma LoggedOutIsNotLive(b: Browser, nowMs: int, decode: string -> Option<Claims>)
    requires IdTokenKey !in b.storage
    ensures !b.IsAuthenticated(nowMs, decode) && b.GetUserInfo(decode).None?
  {
  }
}
