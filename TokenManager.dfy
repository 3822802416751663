/** The OAuth token life cycle of the package client (`TradeStation` in
    tradestation/tradestation.py): the redirect handler, the code exchange,
    the token refresh and the background refresh loop.

    Each transition is a function from the token state, the reply of the
    token endpoint (a parameter: the network is not modelled) and the current
    time in whole seconds, to the new state, the form posted (if any) and the
    exception raised (if any).  A `KeyError` in the middle of an update leaves
    the fields assigned before it changed, as Python does.  The class
    `Session` holds the state in fields and its methods follow the
    functions. */
module TokenManager {
  import opened Common
  import opened Json

  /** The instance fields the token flow updates.  `expiry` is
      `token_expiry`, which `__init__` never sets. */
  datatype TokenState = TokenState(access: Option<string>, refresh: Option<string>, expiry: Option<Instant>, signalled: bool)

  /** What the token endpoint answered: status, body text, and the body's
      `access_token`, `refresh_token` and `expires_in` entries (`None` when
      the key is absent). */
  datatype TokenReply = TokenReply(status: int, text: string,
                                   accessToken: Option<string>, refreshToken: Option<string>, expiresIn: Option<int>)

  /** The configuration the forms are built from; `margin` is
      `refresh_token_margin`, 60 seconds unless given. */
  datatype Client = Client(clientId: string, clientSecret: string, redirectUri: string, margin: int)

  const DefaultExpiresIn := 1200
  const DefaultMargin := 60

  /** `body.get('expires_in', 1200)`. */
  function ExpiresIn(reply: TokenReply): int {
    reply.expiresIn.GetOr(DefaultExpiresIn)
  }

  /** A url-encoded form posted to the token endpoint. */
  type Form = map<string, string>

  function ExchangeForm(c: Client, code: string): (f: Form)
    ensures f.Keys == {"grant_type", "code", "redirect_uri", "client_id", "client_secret"}
    ensures f["grant_type"] == "authorization_code" && f["code"] == code
    ensures f["redirect_uri"] == c.redirectUri && f["client_id"] == c.clientId && f["client_secret"] == c.clientSecret
  {
    map["grant_type" := "authorization_code", "code" := code, "redirect_uri" := c.redirectUri,
        "client_id" := c.clientId, "client_secret" := c.clientSecret]
  }

  function RefreshForm(c: Client, refresh: string): (f: Form)
    ensures f.Keys == {"grant_type", "client_id", "client_secret", "refresh_token"}
    ensures f["grant_type"] == "refresh_token" && f["refresh_token"] == refresh
    ensures f["client_id"] == c.clientId && f["client_secret"] == c.clientSecret
  {
    map["grant_type" := "refresh_token", "client_id" := c.clientId, "client_secret" := c.clientSecret,
        "refresh_token" := refresh]
  }

  /** The outcome of one transition. */
  datatype Step = Step(state: TokenState, posted: Option<Form>, failure: Option<Error>)

  /** `_exchange_code_for_token`: post the code; on 200 set the access token,
      then the refresh token, then the expiry; otherwise raise with the body. */
  function Exchange(c: Client, t: TokenState, code: string, reply: TokenReply, now: Instant): (r: Step)
    ensures r.posted == Some(ExchangeForm(c, code))
    ensures r.state.signalled == t.signalled
    ensures r.failure.None? <==> reply.status == 200 && reply.accessToken.Some? && reply.refreshToken.Some?
    ensures r.failure.None? ==>
      r.state == TokenState(reply.accessToken, reply.refreshToken, Some(now + ExpiresIn(reply)), t.signalled)
    ensures reply.status != 200 ==> r.state == t && r.failure == Some(TokenRequestFailed(reply.text))
    ensures reply.status == 200 && reply.accessToken.None? ==>
      r.state == t && r.failure == Some(MissingKey("access_token"))
    ensures reply.status == 200 && reply.accessToken.Some? && reply.refreshToken.None? ==>
      r.state == t.(access := reply.accessToken) && r.failure == Some(MissingKey("refresh_token"))
  {
    var posted := Some(ExchangeForm(c, code));
    if reply.status != 200 then Step(t, posted, Some(TokenRequestFailed(reply.text)))
    else if reply.accessToken.None? then Step(t, posted, Some(MissingKey("access_token")))
    else
      var t1 := t.(access := reply.accessToken);
      if reply.refreshToken.None? then Step(t1, posted, Some(MissingKey("refresh_token")))
      else Step(t1.(refresh := reply.refreshToken, expiry := Some(now + ExpiresIn(reply))), posted, None)
  }

  /** The reply of the redirect handler when it returns. */
  datatype Page = SuccessPage | NoCodePage

  const NoCodeText := "No authorization code found."

  /** `_handle_auth_redirect`: with a truthy `code` query value, exchange it
      and then signal the waiting `_authenticate`; otherwise answer with the
      "no code" text.  `page` is `None` when the exchange raised. */
  function Redirect(c: Client, t: TokenState, code: Option<string>, reply: TokenReply, now: Instant): (r: (Step, Option<Page>))
    ensures !StrSet(code) ==> r == (Step(t, None, None), Some(NoCodePage))
    ensures r.0.state.signalled <==> t.signalled || (StrSet(code) && r.0.failure.None?)
    ensures StrSet(code) ==> r.0.posted == Some(ExchangeForm(c, code.value))
    ensures r.1 == Some(SuccessPage) <==> StrSet(code) && r.0.failure.None?
    ensures StrSet(code) ==> r.0.failure == Exchange(c, t, code.value, reply, now).failure
    ensures StrSet(code) ==>
      r.0.state == Exchange(c, t, code.value, reply, now).state.(signalled := r.0.state.signalled)
  {
    if StrSet(code) then
      var s := Exchange(c, t, code.value, reply, now);
      if s.failure.Some? then (s, None)
      else (s.(state := s.state.(signalled := true)), Some(SuccessPage))
    else (Step(t, None, None), Some(NoCodePage))
  }

  /** What the redirect does with the token endpoint's reply: with a truthy
      code it signals exactly when the reply is a 200 carrying both tokens,
      and then stores them; any other status leaves the tokens and the signal
      as they were. */
  lemma RedirectOutcome(c: Client, t: TokenState, code: string, reply: TokenReply, now: Instant)
    requires code != ""
    ensures Redirect(c, t, Some(code), reply, now).0.state.signalled <==>
      t.signalled || (reply.status == 200 && reply.accessToken.Some? && reply.refreshToken.Some?)
    ensures reply.status == 200 && reply.accessToken.Some? && reply.refreshToken.Some? ==>
      && Redirect(c, t, Some(code), reply, now).0.state
         == TokenState(reply.accessToken, reply.refreshToken, Some(now + ExpiresIn(reply)), true)
      && Redirect(c, t, Some(code), reply, now).1 == Some(SuccessPage)
    ensures reply.status != 200 ==>
      && Redirect(c, t, Some(code), reply, now).0.state == t
      && Redirect(c, t, Some(code), reply, now).0.failure == Some(TokenRequestFailed(reply.text))
      && Redirect(c, t, Some(code), reply, now).1.None?
  {
  }

  /** `_refresh_access_token` as written: the guard, then a call of
      `_asend_request` with a `data` keyword it does not declare, which raises
      `TypeError` before any request is made. */
  function RefreshAsWritten(t: TokenState): (r: Step)
    ensures r.state == t && r.posted.None? && r.failure.Some?
  {
    if !StrSet(t.refresh) then Step(t, None, Some(NoRefreshToken))
    else Step(t, None, Some(UnexpectedKeyword("data")))
  }

  /** `_refresh_access_token` as intended: the guard, then post the refresh
      form; on 200 replace the access token and the expiry and keep the
      refresh token; otherwise raise with the body. */
  function Refresh(c: Client, t: TokenState, reply: TokenReply, now: Instant): (r: Step)
    ensures !StrSet(t.refresh) ==> r == Step(t, None, Some(NoRefreshToken))
    ensures StrSet(t.refresh) ==> r.posted == Some(RefreshForm(c, t.refresh.value))
    ensures r.state.refresh == t.refresh && r.state.signalled == t.signalled
    ensures r.failure.None? <==> StrSet(t.refresh) && reply.status == 200 && reply.accessToken.Some?
    ensures r.failure.None? ==> r.state == t.(access := reply.accessToken, expiry := Some(now + ExpiresIn(reply)))
    ensures r.failure.Some? ==> r.state == t
  {
    if !StrSet(t.refresh) then Step(t, None, Some(NoRefreshToken))
    else
      var posted := Some(RefreshForm(c, t.refresh.value));
      if reply.status != 200 then Step(t, posted, Some(TokenRequestFailed(reply.text)))
      else if reply.accessToken.None? then Step(t, posted, Some(MissingKey("access_token")))
      else Step(t.(access := reply.accessToken, expiry := Some(now + ExpiresIn(reply))), posted, None)
  }

  /** Without a refresh token the refresh raises before anything is posted,
      whatever the endpoint would have answered. */
  lemma RefreshGuardFirst(c: Client, t: TokenState, r1: TokenReply, r2: TokenReply, now1: Instant, now2: Instant)
    requires !StrSet(t.refresh)
    ensures Refresh(c, t, r1, now1) == Refresh(c, t, r2, now2)
    ensures Refresh(c, t, r1, now1).posted.None?
  {
  }

  /** The refresh as written never refreshes: a state holding a refresh token
      and an endpoint that would answer 200 still end in `TypeError`, where the
      intended refresh installs the new access token. */
  lemma RefreshAsWrittenFails(c: Client)
    ensures var t := TokenState(Some("old"), Some("r"), Some(0), true);
            var reply := TokenReply(200, "", Some("new"), None, None);
            && RefreshAsWritten(t) == Step(t, None, Some(UnexpectedKeyword("data")))
            && Refresh(c, t, reply, 100) == Step(t.(access := Some("new"), expiry := Some(1300)), Some(RefreshForm(c, "r")), None)
  {
  }

  // ---------------------------------------------------------------------
  // The refresh loop's sleep

  const SecondsPerDay := 86400

  /** `(token_expiry - now - refresh_margin).seconds`: the seconds component
      of a `timedelta`, which Python normalises into [0, 86400) with the days
      carrying the sign. */
  function WrappedDelay(expiry: Instant, now: Instant, margin: int): (d: int)
    ensures 0 <= d < SecondsPerDay
    ensures (expiry - now - margin - d) % SecondsPerDay == 0
  {
    (expiry - now - margin) % SecondsPerDay
  }

  /** A remaining time within a day is slept exactly; one that is overdue by
      `k` seconds (less than a day) gives `86400 - k`, never 0. */
  lemma WrappedDelayCases(expiry: Instant, now: Instant, margin: int)
    ensures 0 <= expiry - now - margin < SecondsPerDay ==> WrappedDelay(expiry, now, margin) == expiry - now - margin
    ensures -SecondsPerDay < expiry - now - margin < 0 ==>
      WrappedDelay(expiry, now, margin) == SecondsPerDay + (expiry - now - margin) > 0
  {
    var x := expiry - now - margin;
    if -SecondsPerDay < x < 0 {
      assert (x + SecondsPerDay) % SecondsPerDay == x % SecondsPerDay;
    }
  }

  /** The wrapped delay on an overdue token: one second late sleeps almost a
      day instead of refreshing at once. */
  lemma OverdueSleepsADay()
    ensures WrappedDelay(1000, 941, 60) == 86399
  {
  }

  /** The delay `max(..., 0)` evidently means: the remaining time, and no wait
      at all once the refresh is due. */
  function ClampedDelay(expiry: Instant, now: Instant, margin: int): (d: int)
    ensures d >= 0
    ensures d == 0 <==> expiry - margin <= now
    ensures d > 0 ==> now + d == expiry - margin
  {
    if expiry - now - margin > 0 then expiry - now - margin else 0
  }

  /** What the loop did before it returned or raised. */
  datatype LoopRun = LoopRun(state: TokenState, delays: seq<int>, posted: seq<Form>, failure: Option<Error>)

  /** `_refresh_token_loop`, one tick per round: `ticks[i]` is the time the
      round starts and the endpoint's reply to its refresh.  The round returns
      when there is no refresh token, otherwise sleeps and refreshes at the
      time it wakes; a raising refresh ends the loop.  The `while True` runs
      for as many rounds as there are ticks. */
  function RefreshLoop(c: Client, t: TokenState, ticks: seq<(Instant, TokenReply)>): (r: LoopRun)
    ensures |r.delays| <= |ticks| && |r.posted| <= |r.delays|
    ensures forall k :: 0 <= k < |r.delays| ==> r.delays[k] >= 0
    ensures !StrSet(t.refresh) ==> r == LoopRun(t, [], [], None)
    ensures StrSet(t.refresh) && t.expiry.None? && |ticks| > 0 ==>
      r == LoopRun(t, [], [], Some(MissingAttribute("token_expiry")))
    ensures StrSet(t.refresh) && t.expiry.Some? && |ticks| > 0 ==>
      |r.delays| > 0 && r.delays[0] == ClampedDelay(t.expiry.value, ticks[0].0, c.margin)
    decreases |ticks|
  {
    if !StrSet(t.refresh) || |ticks| == 0 then LoopRun(t, [], [], None)
    else if t.expiry.None? then LoopRun(t, [], [], Some(MissingAttribute("token_expiry")))
    else
      var now := ticks[0].0;
      var d := ClampedDelay(t.expiry.value, now, c.margin);
      var s := Refresh(c, t, ticks[0].1, now + d);
      var sent := if s.posted.Some? then [s.posted.value] else [];
      if s.failure.Some? then LoopRun(s.state, [d], sent, s.failure)
      else
        var rest := RefreshLoop(c, s.state, ticks[1..]);
        LoopRun(rest.state, [d] + rest.delays, sent + rest.posted, rest.failure)
  }

  /** The loop's result after the rounds already run. */
  function Resume(delays: seq<int>, posted: seq<Form>, r: LoopRun): LoopRun {
    LoopRun(r.state, delays + r.delays, posted + r.posted, r.failure)
  }

  /** One round of the loop, from a state that holds a refresh token and an
      expiry. */
  lemma RoundUnfold(c: Client, t: TokenState, ticks: seq<(Instant, TokenReply)>, delays: seq<int>, posted: seq<Form>)
    requires StrSet(t.refresh) && t.expiry.Some? && |ticks| > 0
    ensures var d := ClampedDelay(t.expiry.value, ticks[0].0, c.margin);
      var s := Refresh(c, t, ticks[0].1, ticks[0].0 + d);
      var posted' := if s.posted.Some? then posted + [s.posted.value] else posted;
      Resume(delays, posted, RefreshLoop(c, t, ticks)) ==
        if s.failure.Some? then LoopRun(s.state, delays + [d], posted', s.failure)
        else Resume(delays + [d], posted', RefreshLoop(c, s.state, ticks[1..]))
  {
    var d := ClampedDelay(t.expiry.value, ticks[0].0, c.margin);
    var s := Refresh(c, t, ticks[0].1, ticks[0].0 + d);
    var sent := if s.posted.Some? then [s.posted.value] else [];
    assert (if s.posted.Some? then posted + [s.posted.value] else posted) == posted + sent;
    if s.failure.None? {
      var rest := RefreshLoop(c, s.state, ticks[1..]);
      assert delays + ([d] + rest.delays) == (delays + [d]) + rest.delays;
      assert posted + (sent + rest.posted) == (posted + sent) + rest.posted;
    }
  }

  /** A successful refresh keeps the refresh token, so a loop that starts
      with one and some expiry never returns on its own: unless a refresh
      raises, it runs a round per tick, posting the refresh form each time,
      and ends holding the same refresh token. */
  lemma {:induction false} RefreshLoopRunsEveryTick(c: Client, t: TokenState, ticks: seq<(Instant, TokenReply)>)
    requires StrSet(t.refresh) && t.expiry.Some?
    ensures RefreshLoop(c, t, ticks).failure.None? ==> |RefreshLoop(c, t, ticks).delays| == |ticks|
    ensures RefreshLoop(c, t, ticks).failure.None? ==> |RefreshLoop(c, t, ticks).posted| == |ticks|
    ensures RefreshLoop(c, t, ticks).failure.None? ==> RefreshLoop(c, t, ticks).state.refresh == t.refresh
    ensures forall k :: 0 <= k < |RefreshLoop(c, t, ticks).posted| ==>
      RefreshLoop(c, t, ticks).posted[k] == RefreshForm(c, t.refresh.value)
    decreases |ticks|
  {
    if |ticks| > 0 {
      var now := ticks[0].0;
      var d := ClampedDelay(t.expiry.value, now, c.margin);
      var s := Refresh(c, t, ticks[0].1, now + d);
      if s.failure.None? {
        RefreshLoopRunsEveryTick(c, s.state, ticks[1..]);
      }
    }
  }

  /** Every round after the first sleeps until `margin` seconds before the
      expiry the previous round's refresh set: the previous round woke at its
      start time plus its sleep, and the reply's lifetime counts from then. */
  lemma {:induction false} RefreshLoopSleepsToMargin(c: Client, t: TokenState, ticks: seq<(Instant, TokenReply)>)
    requires StrSet(t.refresh) && t.expiry.Some?
    ensures forall k :: 1 <= k < |RefreshLoop(c, t, ticks).delays| ==>
      RefreshLoop(c, t, ticks).delays[k]
      == ClampedDelay(ticks[k - 1].0 + RefreshLoop(c, t, ticks).delays[k - 1] + ExpiresIn(ticks[k - 1].1), ticks[k].0, c.margin)
    decreases |ticks|
  {
    if |ticks| > 0 {
      var now := ticks[0].0;
      var d := ClampedDelay(t.expiry.value, now, c.margin);
      var s := Refresh(c, t, ticks[0].1, now + d);
      if s.failure.None? {
        var rest := RefreshLoop(c, s.state, ticks[1..]);
        var delays := RefreshLoop(c, t, ticks).delays;
        RefreshLoopSleepsToMargin(c, s.state, ticks[1..]);
        assert delays == [d] + rest.delays;
        forall k | 1 <= k < |delays|
          ensures delays[k] == ClampedDelay(ticks[k - 1].0 + delays[k - 1] + ExpiresIn(ticks[k - 1].1), ticks[k].0, c.margin)
        {
          assert ticks[k] == ticks[1..][k - 1];
          if k > 1 {
            assert delays[k] == rest.delays[k - 1] && delays[k - 1] == rest.delays[k - 2];
            assert ticks[k - 1] == ticks[1..][k - 2];
          }
        }
      }
    }
  }

  // ---------------------------------------------------------------------
  // The client object

  class Session {
    const client: Client
    var accessToken: Option<string>
    var refreshToken: Option<string>
    var tokenExpiry: Option<Instant>
    var signalled: bool

    function Tokens(): TokenState
      reads this
    {
      TokenState(accessToken, refreshToken, tokenExpiry, signalled)
    }

    /** The fields as `__init__` leaves them before authentication. */
    constructor (c: Client)
      ensures client == c && Tokens() == TokenState(None, None, None, false)
    {
      client := c;
      accessToken, refreshToken, tokenExpiry, signalled := None, None, None, false;
    }

    method ExchangeCodeForToken(code: string, reply: TokenReply, now: Instant) returns (posted: Form, failure: Option<Error>)
      modifies this
      ensures Step(Tokens(), Some(posted), failure) == Exchange(client, old(Tokens()), code, reply, now)
    {
      posted := ExchangeForm(client, code);
      failure := None;
      if reply.status == 200 {
        if reply.accessToken.None? {
          failure := Some(MissingKey("access_token"));
          return;
        }
        accessToken := reply.accessToken;
        if reply.refreshToken.None? {
          failure := Some(MissingKey("refresh_token"));
          return;
        }
        refreshToken := reply.refreshToken;
        tokenExpiry := Some(now + ExpiresIn(reply));
      } else {
        failure := Some(TokenRequestFailed(reply.text));
      }
    }

    method HandleAuthRedirect(code: Option<string>, reply: TokenReply, now: Instant)
      returns (posted: Option<Form>, failure: Option<Error>, page: Option<Page>)
      modifies this
      ensures (Step(Tokens(), posted, failure), page) == Redirect(client, old(Tokens()), code, reply, now)
    {
      if StrSet(code) {
        var form;
        form, failure := ExchangeCodeForToken(code.value, reply, now);
        posted := Some(form);
        if failure.Some? {
          page := None;
          return;
        }
        signalled := true;
        page := Some(SuccessPage);
      } else {
        posted, failure, page := None, None, Some(NoCodePage);
      }
    }

    method RefreshAccessToken(reply: TokenReply, now: Instant) returns (posted: Option<Form>, failure: Option<Error>)
      modifies this
      ensures Step(Tokens(), posted, failure) == Refresh(client, old(Tokens()), reply, now)
    {
      if !StrSet(refreshToken) {
        posted, failure := None, Some(NoRefreshToken);
        return;
      }
      posted := Some(RefreshForm(client, refreshToken.value));
      failure := None;
      if reply.status != 200 {
        failure := Some(TokenRequestFailed(reply.text));
      } else if reply.accessToken.None? {
        failure := Some(MissingKey("access_token"));
      } else {
        accessToken := reply.accessToken;
        tokenExpiry := Some(now + ExpiresIn(reply));
      }
    }

    method RefreshTokenLoop(ticks: seq<(Instant, TokenReply)>) returns (delays: seq<int>, posted: seq<Form>, failure: Option<Error>)
      modifies this
      ensures LoopRun(Tokens(), delays, posted, failure) == RefreshLoop(client, old(Tokens()), ticks)
    {
      delays, posted, failure := [], [], None;
      var i := 0;
      while i < |ticks|
        invariant 0 <= i <= |ticks| && failure.None?
        invariant RefreshLoop(client, old(Tokens()), ticks) == Resume(delays, posted, RefreshLoop(client, Tokens(), ticks[i..]))
      {
        if !StrSet(refreshToken) {
          return;
        }
        if tokenExpiry.None? {
          failure := Some(MissingAttribute("token_expiry"));
          return;
        }
        var now := ticks[i].0;
        var d := ClampedDelay(tokenExpiry.value, now, client.margin);
        ghost var before := Tokens();
        var sent;
        sent, failure := RefreshAccessToken(ticks[i].1, now + d);
        RoundUnfold(client, before, ticks[i..], delays, posted);
        delays := delays + [d];
        if sent.Some? {
          posted := posted + [sent.value];
        }
        if failure.Some? {
          return;
        }
        assert ticks[i..][1..] == ticks[i + 1..];
        i := i + 1;
      }
      assert ticks[i..] == [];
    }
  }
}
