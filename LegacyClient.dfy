/** The root client (tradestation.py): environment loading, the authorization
    URL, the OAuth callback server's `do_GET`, and the token updates of
    `exchange_code_for_token`, `refresh_access_token` and
    `_handle_token_response`.  HTTP calls are replaced by the token
    endpoint's reply; the current time is a parameter in whole seconds. */
module LegacyClient {
  import opened Common
  import Text
  import opened Json
  import opened TokenManager
  import opened BarRequests
  import opened StreamReader

  // ---------------------------------------------------------------------
  // _load_env_variables

  /** The process environment: a variable is either set (possibly to "") or
      absent. */
  type Env = map<string, string>

  function Getenv(env: Env, name: string): Option<string> {
    if name in env then Some(env[name]) else None
  }

  const DefaultPort := 8080

  datatype Config = Config(clientId: string, clientSecret: string, authUrl: string, tokenUrl: string,
                           port: int, apiUrl: Option<string>, redirectUri: string)

  function RedirectUri(port: int): string {
    "http://localhost:" + Text.IntToString(port) + "/"
  }

  /** The four variables without which loading fails. */
  predicate HasCredentials(env: Env) {
    StrSet(Getenv(env, "CLIENT_ID")) && StrSet(Getenv(env, "CLIENT_SECRET"))
    && StrSet(Getenv(env, "AUTH_URL")) && StrSet(Getenv(env, "TOKEN_URL"))
  }

  /** `_load_env_variables`: `PORT` is converted first (a value `int()`
      refuses raises at once), then the four credentials must be truthy;
      `API_URL` may be absent. */
  function LoadEnv(env: Env): (r: Result<Config>)
    ensures "PORT" in env && Text.ParseInt(env["PORT"]).None? ==> r == Err(InvalidPort(env["PORT"]))
    ensures r.Ok? <==> ("PORT" !in env || Text.ParseInt(env["PORT"]).Some?) && HasCredentials(env)
    ensures r.Err? && !("PORT" in env && Text.ParseInt(env["PORT"]).None?) ==> r == Err(MissingEnvironment)
    ensures r.Ok? ==> r.value.redirectUri == RedirectUri(r.value.port)
    ensures r.Ok? ==> r.value.port == (if "PORT" in env then Text.ParseInt(env["PORT"]).value else DefaultPort)
    ensures r.Ok? ==> r.value.clientId == env["CLIENT_ID"] && r.value.clientSecret == env["CLIENT_SECRET"]
    ensures r.Ok? ==> r.value.authUrl == env["AUTH_URL"] && r.value.tokenUrl == env["TOKEN_URL"]
    ensures r.Ok? ==> r.value.apiUrl == Getenv(env, "API_URL")
  {
    var port := if "PORT" in env then Text.ParseInt(env["PORT"]) else Some(DefaultPort);
    if port.None? then Err(InvalidPort(env["PORT"]))
    else if !HasCredentials(env) then Err(MissingEnvironment)
    else Ok(Config(env["CLIENT_ID"], env["CLIENT_SECRET"], env["AUTH_URL"], env["TOKEN_URL"],
                   port.value, Getenv(env, "API_URL"), RedirectUri(port.value)))
  }

  /** A port written the way `str` writes it is read back, and the redirect
      URI carries it; an absent `PORT` gives `http://localhost:8080/`. */
  lemma PortRoundTrip(env: Env, p: int)
    requires HasCredentials(env)
    ensures "PORT" in env && env["PORT"] == Text.IntToString(p) ==>
      LoadEnv(env).Ok? && LoadEnv(env).value.port == p && LoadEnv(env).value.redirectUri == RedirectUri(p)
    ensures "PORT" !in env ==> LoadEnv(env).Ok? && LoadEnv(env).value.redirectUri == "http://localhost:8080/"
  {
    Text.ParseIntToString(p);
    assert Text.IntToString(8080) == "8080";
  }

  // ---------------------------------------------------------------------
  // _generate_auth_url

  const Audience := "https://api.tradestation.com"
  /** The requested scopes, which the query writes space-separated. */
  const ScopeNames := ["openid", "profile", "offline_access", "MarketData", "ReadAccount", "Trade"]
  const Scope := Text.Join(ScopeNames, ' ')
  const State := "xyzv"

  /** The authorization request parameters, in insertion order. */
  function AuthParams(cfg: Config): (ps: seq<(string, string)>)
    ensures |ps| == 6
  {
    [("response_type", "code"), ("client_id", cfg.clientId), ("audience", Audience),
     ("redirect_uri", cfg.redirectUri), ("scope", Scope), ("state", State)]
  }

  function AuthQuery(cfg: Config): string {
    Text.UrlEncode(AuthParams(cfg))
  }

  function AuthorizeUrl(cfg: Config): string {
    cfg.authUrl + "?" + AuthQuery(cfg)
  }

  // ---------------------------------------------------------------------
  // parse_qs, as do_GET uses it

  /** `urlparse(path).query`: what follows the first `?`, before any `#`. */
  function QueryOf(path: string): string {
    var beforeFragment := Text.Split(path, '#')[0];
    var parts := Text.Split(beforeFragment, '?');
    if |parts| >= 2 then Text.Join(parts[1..], '?') else ""
  }

  /** `parse_qsl(query)` with blank values dropped, over the `&`-separated
      items: an empty item or one without `=` is skipped, the name and value
      are split at the first `=`, and a pair is kept only when its raw value
      is non-empty. */
  function PairsOf(items: seq<string>): seq<(string, string)>
    decreases |items|
  {
    if |items| == 0 then []
    else
      var parts := Text.Split(items[0], '=');
      var value := Text.Join(parts[1..], '=');
      if items[0] == "" || |parts| < 2 || value == "" then PairsOf(items[1..])
      else [(Text.UnquotePlusAscii(parts[0]), Text.UnquotePlusAscii(value))] + PairsOf(items[1..])
  }

  function QueryPairs(query: string): seq<(string, string)> {
    PairsOf(Text.Split(query, '&'))
  }

  /** `parse_qs(query).get(name)`: the values given for `name`, in order. */
  function ValuesOf(pairs: seq<(string, string)>, name: string): (vs: seq<string>)
    ensures |vs| <= |pairs|
    decreases |pairs|
  {
    if |pairs| == 0 then []
    else if pairs[0].0 == name then [pairs[0].1] + ValuesOf(pairs[1..], name)
    else ValuesOf(pairs[1..], name)
  }

  /** A value `QuotePlus` receives back from non-empty text is non-empty. */
  lemma QuotePlusNonEmpty(s: string)
    requires s != ""
    ensures Text.QuotePlus(s) != ""
  {
    var c := s[0];
    assert |Text.QuoteChar(c)| > 0 by {
      if !Text.Unreserved(c) && c != ' ' {
        assert |Text.PercentEscape(Text.Utf8(c))| == 3 * |Text.Utf8(c)|;
      }
    }
  }

  /** The query side of the round trip: decoding what `urlencode` wrote gives
      back the pairs, in order, when keys and values are ASCII and every value
      is non-empty; an empty
      `urlencode` result decodes to no pairs. */
  lemma {:induction false} ParseUrlEncode(pairs: seq<(string, string)>)
    requires forall i :: 0 <= i < |pairs| ==> Text.Ascii(pairs[i].0) && Text.Ascii(pairs[i].1) && pairs[i].1 != ""
    ensures QueryPairs(Text.UrlEncode(pairs)) == pairs
  {
    if |pairs| == 0 {
      assert Text.Split(Text.UrlEncode(pairs), '&') == [""];
    } else {
      Text.UrlEncodeSplits(pairs);
      PairsOfItems(pairs);
    }
  }

  lemma {:induction false} PairsOfItems(pairs: seq<(string, string)>)
    requires forall i :: 0 <= i < |pairs| ==> Text.Ascii(pairs[i].0) && Text.Ascii(pairs[i].1) && pairs[i].1 != ""
    requires forall i :: 0 <= i < |pairs| ==>
      Text.Split(Text.EncodedItems(pairs)[i], '=') == [Text.QuotePlus(pairs[i].0), Text.QuotePlus(pairs[i].1)]
    ensures PairsOf(Text.EncodedItems(pairs)) == pairs
    decreases |pairs|
  {
    if |pairs| > 0 {
      var items := Text.EncodedItems(pairs);
      var k, v := Text.QuotePlus(pairs[0].0), Text.QuotePlus(pairs[0].1);
      assert items[1..] == Text.EncodedItems(pairs[1..]);
      assert Text.Split(items[0], '=') == [k, v];
      assert [k, v][1..] == [v];
      QuotePlusNonEmpty(pairs[0].1);
      Text.UnquoteQuotePlus(pairs[0].0);
      Text.UnquoteQuotePlus(pairs[0].1);
      assert items[0] != "" by {
        assert '=' in items[0] by { assert items[0][|k|] == '='; }
      }
      PairsOfItems(pairs[1..]);
      assert pairs == [pairs[0]] + pairs[1..];
    }
  }

  /** The authorization URL is `auth_url`, one `?`, and a query that carries
      exactly the six parameters, in order, when the client id and the
      redirect URI are non-empty ASCII. */
  lemma AuthorizeUrlParams(cfg: Config)
    requires Text.Ascii(cfg.clientId) && cfg.clientId != "" && Text.Ascii(cfg.redirectUri) && cfg.redirectUri != ""
    requires '?' !in cfg.authUrl
    ensures Text.Split(AuthorizeUrl(cfg), '?') == [cfg.authUrl, AuthQuery(cfg)]
    ensures QueryPairs(AuthQuery(cfg)) == AuthParams(cfg)
  {
    AuthParamsAscii(cfg);
    ParseUrlEncode(AuthParams(cfg));
    NoQuestionMark(AuthParams(cfg));
    SplitAtFirst(cfg.authUrl, AuthQuery(cfg), '?');
  }

  lemma AuthParamsAscii(cfg: Config)
    requires Text.Ascii(cfg.clientId) && cfg.clientId != "" && Text.Ascii(cfg.redirectUri) && cfg.redirectUri != ""
    ensures forall i :: 0 <= i < |AuthParams(cfg)| ==>
      Text.Ascii(AuthParams(cfg)[i].0) && Text.Ascii(AuthParams(cfg)[i].1) && AuthParams(cfg)[i].1 != ""
  {
    NamesAscii();
    AudienceAscii();
    forall i | 0 <= i < |ScopeNames| ensures Text.Ascii(ScopeNames[i]) {
      ScopeNamesAscii();
    }
    AsciiJoin(ScopeNames, ' ');
    assert Text.Join(ScopeNames, ' ')[..6] == "openid";
  }

  lemma NamesAscii()
    ensures Text.Ascii("response_type") && Text.Ascii("code") && Text.Ascii("client_id")
    ensures Text.Ascii("audience") && Text.Ascii("redirect_uri") && Text.Ascii("scope")
    ensures Text.Ascii("state") && Text.Ascii(State)
  {
  }

  lemma AudienceAscii()
    ensures Text.Ascii(Audience)
  {
  }

  lemma ScopeNamesAscii()
    ensures forall i :: 0 <= i < |ScopeNames| ==> Text.Ascii(ScopeNames[i])
  {
  }

  lemma {:induction false} AsciiJoin(parts: seq<string>, sep: char)
    requires (sep as int) < 0x80 && forall i :: 0 <= i < |parts| ==> Text.Ascii(parts[i])
    ensures Text.Ascii(Text.Join(parts, sep))
    decreases |parts|
  {
    if |parts| > 1 {
      AsciiJoin(parts[1..], sep);
      var rest := Text.Join(parts[1..], sep);
      assert Text.Join(parts, sep) == parts[0] + [sep] + rest;
      assert forall i :: |parts[0]| < i < |parts[0]| + 1 + |rest| ==> (parts[0] + [sep] + rest)[i] == rest[i - |parts[0]| - 1];
    }
  }

  /** `urlencode` never writes `?` or `#`. */
  lemma NoQuestionMark(pairs: seq<(string, string)>)
    ensures '?' !in Text.UrlEncode(pairs) && '#' !in Text.UrlEncode(pairs)
  {
    EncodedAvoids(pairs, '?');
    EncodedAvoids(pairs, '#');
  }

  /** A character `quote_plus` never writes, other than the two separators,
      is absent from an encoded query. */
  lemma EncodedAvoids(pairs: seq<(string, string)>, c: char)
    requires !Text.Quoted(c) && c != '=' && c != '&'
    ensures c !in Text.UrlEncode(pairs)
  {
    var items := Text.EncodedItems(pairs);
    forall i | 0 <= i < |pairs| ensures c !in items[i] {
      var k, v := Text.QuotePlus(pairs[i].0), Text.QuotePlus(pairs[i].1);
      Text.QuotePlusQuoted(pairs[i].0);
      Text.QuotePlusQuoted(pairs[i].1);
      assert items[i] == k + "=" + v;
      assert c !in k && c !in v;
    }
    JoinAvoids(items, '&', c);
  }

  lemma {:induction false} JoinAvoids(parts: seq<string>, sep: char, c: char)
    requires c != sep && forall i :: 0 <= i < |parts| ==> c !in parts[i]
    ensures c !in Text.Join(parts, sep)
    decreases |parts|
  {
    if |parts| > 1 {
      JoinAvoids(parts[1..], sep, c);
      assert Text.Join(parts, sep) == parts[0] + [sep] + Text.Join(parts[1..], sep);
    }
  }

  /** Splitting `p` + sep + `t` when neither side holds the separator. */
  lemma SplitAtFirst(p: string, t: string, sep: char)
    requires sep !in p && sep !in t
    ensures Text.Split(p + [sep] + t, sep) == [p, t]
  {
    assert Text.Join([p, t], sep) == p + [sep] + t;
    Text.SplitJoin([p, t], sep);
  }

  // ---------------------------------------------------------------------
  // Token updates

  /** The root client's token fields; `expiry` is the attribute the source
      calls `expires_in`, which holds a point in time. */
  datatype LegacyTokens = LegacyTokens(access: Option<string>, refresh: Option<string>, expiry: Option<Instant>)

  /** The outcome of a token update: the new fields, the delay of the refresh
      it schedules (if it gets that far) and the exception raised. */
  datatype Update = Update(state: LegacyTokens, scheduled: Option<int>, failure: Option<Error>)

  /** Seconds taken off the token lifetime. */
  const ExpirySlack := 5

  /** `_handle_token_response` as written: on 200 the two tokens and the
      expiry are stored, then `call_later` is handed the expiry (a `datetime`)
      as its delay, which raises, so no refresh is ever scheduled; on any
      other status it raises and nothing changes. */
  function TokenUpdateAsWritten(t: LegacyTokens, reply: TokenReply, now: Instant): (r: Update)
    ensures r.failure.Some? && r.scheduled.None?
    ensures r.state == TokenUpdate(t, reply, now).state
  {
    var u := TokenUpdate(t, reply, now);
    if u.failure.None? then Update(u.state, None, Some(CannotSchedule)) else u
  }

  /** `_handle_token_response` as intended: the refresh is scheduled
      `expires_in - 5` seconds ahead, at the stored expiry. */
  function TokenUpdate(t: LegacyTokens, reply: TokenReply, now: Instant): (r: Update)
    ensures r.failure.None? <==> reply.status == 200 && reply.accessToken.Some? && reply.refreshToken.Some?
    ensures r.failure.None? ==>
      r.state == LegacyTokens(reply.accessToken, reply.refreshToken, Some(now + ExpiresIn(reply) - ExpirySlack))
    ensures r.failure.None? ==> r.scheduled == Some(ExpiresIn(reply) - ExpirySlack) && now + r.scheduled.value == r.state.expiry.value
    ensures r.failure.Some? ==> r.scheduled.None?
    ensures reply.status != 200 ==> r.state == t && r.failure == Some(TokenRequestFailed(reply.text))
    ensures reply.status == 200 && reply.accessToken.None? ==>
      r.state == t && r.failure == Some(MissingKey("access_token"))
    ensures reply.status == 200 && reply.accessToken.Some? && reply.refreshToken.None? ==>
      r.state == t.(access := reply.accessToken) && r.failure == Some(MissingKey("refresh_token"))
  {
    if reply.status != 200 then Update(t, None, Some(TokenRequestFailed(reply.text)))
    else if reply.accessToken.None? then Update(t, None, Some(MissingKey("access_token")))
    else
      var t1 := t.(access := reply.accessToken);
      if reply.refreshToken.None? then Update(t1, None, Some(MissingKey("refresh_token")))
      else
        var delay := ExpiresIn(reply) - ExpirySlack;
        Update(t1.(refresh := reply.refreshToken, expiry := Some(now + delay)), Some(delay), None)
  }

  /** A token reply the update accepts still ends in an exception as
      written, after the fields have changed; the intended update schedules
      the refresh at the stored expiry. */
  lemma ScheduleAlwaysFails()
    ensures var t := LegacyTokens(None, None, None);
            var reply := TokenReply(200, "", Some("A"), Some("R"), Some(60));
            && TokenUpdateAsWritten(t, reply, 1000) == Update(LegacyTokens(Some("A"), Some("R"), Some(1055)), None, Some(CannotSchedule))
            && TokenUpdate(t, reply, 1000) == Update(LegacyTokens(Some("A"), Some("R"), Some(1055)), Some(55), None)
  {
  }

  /** The forms the root client posts are the package's. */
  function FormClient(cfg: Config): Client {
    Client(cfg.clientId, cfg.clientSecret, cfg.redirectUri, DefaultMargin)
  }

  /** `refresh_access_token`: the guard comes before the POST; the reply then
      goes through `_handle_token_response`, which replaces both tokens. */
  function LegacyRefresh(cfg: Config, t: LegacyTokens, reply: TokenReply, now: Instant): (r: (Option<Form>, Update))
    ensures !StrSet(t.refresh) ==> r == (None, Update(t, None, Some(NoRefreshToken)))
    ensures StrSet(t.refresh) ==> r.0 == Some(RefreshForm(FormClient(cfg), t.refresh.value)) && r.1 == TokenUpdate(t, reply, now)
  {
    if !StrSet(t.refresh) then (None, Update(t, None, Some(NoRefreshToken)))
    else (Some(RefreshForm(FormClient(cfg), t.refresh.value)), TokenUpdate(t, reply, now))
  }

  /** What `do_GET` answers and does. */
  datatype Callback = Callback(status: int, message: string, posted: Option<Form>, update: Update)

  const NoCodeMessage := "Error: No code received"

  /** `OAuthHandler.do_GET`: without a `code` value the server answers 400 and
      nothing is exchanged; otherwise it answers 200 and exchanges the first
      `code` value. */
  function OnCallback(cfg: Config, t: LegacyTokens, path: string, reply: TokenReply, now: Instant): (r: Callback)
    ensures |ValuesOf(QueryPairs(QueryOf(path)), "code")| == 0 ==>
      r == Callback(400, NoCodeMessage, None, Update(t, None, None))
    ensures |ValuesOf(QueryPairs(QueryOf(path)), "code")| > 0 ==>
      r.status == 200 && r.posted == Some(ExchangeForm(FormClient(cfg), ValuesOf(QueryPairs(QueryOf(path)), "code")[0]))
      && r.update == TokenUpdate(t, reply, now)
  {
    var codes := ValuesOf(QueryPairs(QueryOf(path)), "code");
    if |codes| == 0 then Callback(400, NoCodeMessage, None, Update(t, None, None))
    else Callback(200, "", Some(ExchangeForm(FormClient(cfg), codes[0])), TokenUpdate(t, reply, now))
  }

  /** The query of `/?q` is `q` when `q` holds no `?` and no `#`. */
  lemma RootQuery(q: string)
    requires '?' !in q && '#' !in q
    ensures QueryOf("/?" + q) == q
  {
    var path := "/?" + q;
    assert path == "/" + ['?'] + q;
    assert '#' !in path;
    assert Text.Join([path], '#') == path;
    Text.SplitJoin([path], '#');
    SplitAtFirst("/", q, '?');
  }

  /** The redirect that follows a successful authorization, `/?code=…&state=…`,
      leads to exchanging exactly the code it carries. */
  lemma CallbackExchangesCode(cfg: Config, t: LegacyTokens, code: string, state: string, reply: TokenReply, now: Instant)
    requires Text.Ascii(code) && code != "" && Text.Ascii(state) && state != ""
    ensures OnCallback(cfg, t, "/?" + Text.UrlEncode([("code", code), ("state", state)]), reply, now).posted
         == Some(ExchangeForm(FormClient(cfg), code))
  {
    var pairs := [("code", code), ("state", state)];
    var q := Text.UrlEncode(pairs);
    var path := "/?" + q;
    assert Text.Ascii("code") && Text.Ascii("state");
    ParseUrlEncode(pairs);
    NoQuestionMark(pairs);
    RootQuery(q);
    assert [("state", state)][1..] == [];
    assert ValuesOf(pairs, "code") == [code];
  }

  /** A code carrying a lower-case escape is decoded as `parse_qs` decodes
      it: `/?code=a%2fb` exchanges `a/b`. */
  lemma CallbackLowerCaseEscape(cfg: Config, t: LegacyTokens, reply: TokenReply, now: Instant)
    ensures OnCallback(cfg, t, "/?code=a%2fb", reply, now).posted == Some(ExchangeForm(FormClient(cfg), "a/b"))
  {
    var q := "code=a%2fb";
    assert "/?code=a%2fb" == "/?" + q;
    RootQuery(q);
    LowerCaseEscapeQuery();
    assert [("code", "a/b")][1..] == [];
    assert ValuesOf([("code", "a/b")], "code") == ["a/b"];
  }

  lemma LowerCaseEscapeQuery()
    ensures QueryPairs("code=a%2fb") == [("code", "a/b")]
  {
    assert "code=a%2fb" == "code" + "=" + "a%2fb";
    SingleItemQuery("code", "a%2fb");
    Text.UnquoteEscapeForms();
    UnquoteCode();
  }

  /** A query of one `name=value` item decodes to that one pair. */
  lemma SingleItemQuery(name: string, value: string)
    requires '&' !in name && '=' !in name && '&' !in value && '=' !in value && value != ""
    ensures QueryPairs(name + "=" + value) == [(Text.UnquotePlusAscii(name), Text.UnquotePlusAscii(value))]
  {
    var item := name + "=" + value;
    assert item == name + ['='] + value;
    assert Text.Split(item, '&') == [item] by {
      assert '&' !in item;
      assert Text.Join([item], '&') == item;
      Text.SplitJoin([item], '&');
    }
    SplitAtFirst(name, value, '=');
    PairsOfOne(item, name, value);
  }

  lemma PairsOfOne(item: string, name: string, value: string)
    requires Text.Split(item, '=') == [name, value] && item != "" && value != ""
    ensures PairsOf([item]) == [(Text.UnquotePlusAscii(name), Text.UnquotePlusAscii(value))]
  {
    assert Text.Join([value], '=') == value;
    assert [name, value][1..] == [value];
    assert [item][1..] == [];
  }

  lemma UnquoteCode()
    ensures Text.UnquotePlusAscii("code") == "code"
  {
    assert "code"[1..] == "ode" && "ode"[1..] == "de" && "de"[1..] == "e" && "e"[1..] == "";
  }

  // ---------------------------------------------------------------------
  // Streaming tick bars

  /** The root `stream_tick_bars`: the range checks come before the request
      (its `params` are built but never sent); then the line loop. */
  function LegacyTickBarsCall(interval: int, barsBack: Option<int>, resp: StreamResponse, parse: Parser): (r: Trace<Call>)
    ensures TickBarsCheck(interval, barsBack).Some? ==> r == Trace([], TickBarsCheck(interval, barsBack))
    ensures TickBarsCheck(interval, barsBack).None? ==> r == LegacyTickBarsStream(resp, parse)
  {
    match TickBarsCheck(interval, barsBack)
    case Some(e) => Trace([], Some(e))
    case None => LegacyTickBarsStream(resp, parse)
  }

  // ---------------------------------------------------------------------
  // The client object

  class LegacySession {
    const config: Config
    var accessToken: Option<string>
    var refreshToken: Option<string>
    var expiresIn: Option<Instant>

    function Tokens(): LegacyTokens
      reads this
    {
      LegacyTokens(accessToken, refreshToken, expiresIn)
    }

    /** The fields `__init__` sets after loading the environment. */
    constructor (cfg: Config)
      ensures config == cfg && Tokens() == LegacyTokens(None, None, None)
    {
      config := cfg;
      accessToken, refreshToken, expiresIn := None, None, None;
    }

    method HandleTokenResponse(reply: TokenReply, now: Instant) returns (scheduled: Option<int>, failure: Option<Error>)
      modifies this
      ensures Update(Tokens(), scheduled, failure) == TokenUpdate(old(Tokens()), reply, now)
    {
      scheduled, failure := None, None;
      if reply.status != 200 {
        failure := Some(TokenRequestFailed(reply.text));
        return;
      }
      if reply.accessToken.None? {
        failure := Some(MissingKey("access_token"));
        return;
      }
      accessToken := reply.accessToken;
      if reply.refreshToken.None? {
        failure := Some(MissingKey("refresh_token"));
        return;
      }
      refreshToken := reply.refreshToken;
      var delay := ExpiresIn(reply) - ExpirySlack;
      expiresIn := Some(now + delay);
      scheduled := Some(delay);
    }

    method ExchangeCodeForToken(code: string, reply: TokenReply, now: Instant)
      returns (posted: Form, scheduled: Option<int>, failure: Option<Error>)
      modifies this
      ensures posted == ExchangeForm(FormClient(config), code)
      ensures Update(Tokens(), scheduled, failure) == TokenUpdate(old(Tokens()), reply, now)
    {
      posted := ExchangeForm(FormClient(config), code);
      scheduled, failure := HandleTokenResponse(reply, now);
    }

    method RefreshAccessToken(reply: TokenReply, now: Instant)
      returns (posted: Option<Form>, scheduled: Option<int>, failure: Option<Error>)
      modifies this
      ensures (posted, Update(Tokens(), scheduled, failure)) == LegacyRefresh(config, old(Tokens()), reply, now)
    {
      if !StrSet(refreshToken) {
        posted, scheduled, failure := None, None, Some(NoRefreshToken);
        return;
      }
      posted := Some(RefreshForm(FormClient(config), refreshToken.value));
      scheduled, failure := HandleTokenResponse(reply, now);
    }

    method DoGet(path: string, reply: TokenReply, now: Instant)
      returns (status: int, message: string, posted: Option<Form>, scheduled: Option<int>, failure: Option<Error>)
      modifies this
      ensures Callback(status, message, posted, Update(Tokens(), scheduled, failure)) == OnCallback(config, old(Tokens()), path, reply, now)
    {
      var codes := ValuesOf(QueryPairs(QueryOf(path)), "code");
      if |codes| == 0 {
        status, message, posted, scheduled, failure := 400, NoCodeMessage, None, None, None;
        return;
      }
      status, message := 200, "";
      var form;
      form, scheduled, failure := ExchangeCodeForToken(codes[0], reply, now);
      posted := Some(form);
    }
  }
}
