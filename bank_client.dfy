/** The client of the bank's API: a GET with a bearer token that, on a 401 to
    its first attempt, refreshes the token pair once (the refresh-token grant
    of section 6 of RFC 6749), saves it, and retries once with the new token
    (the Authorization header of section 2.1 of RFC 6750). */
module BankClient {
  import opened Wrappers
  import opened Calendar
  import opened IsoFormat
  import opened DateWindow
  import opened Transactions

  /** A response of the bank's API: its HTTP status and JSON body. */
  datatype Response = Response(status: int, body: string)

  /** `response.ok`. */
  predicate IsOk(status: int) {
    200 <= status <= 299
  }

  const Unauthorized := 401

  /** What the token endpoint answers: a new token pair, or an answer from
      which no access token can be read (the exchange then throws). */
  datatype TokenReply = Issued(accessToken: string, refreshToken: string) | Refused

  datatype TokenPair = TokenPair(accessToken: string, refreshToken: string)

  /** What the client does to the outside world, in order: a GET with its
      Authorization header, a request to the token endpoint, a save of the
      configuration with the token pair it then holds. */
  datatype Event =
    | Sent(url: string, authorization: string)
    | TokenRequested(grantType: string, grant: string)
    | Saved(tokens: TokenPair)

  datatype GetError =
    | HttpError(status: int)  // a non-ok status that is not retried
    | NetworkError            // the request itself threw
    | RefreshFailed           // the refresh after a 401 threw

  /** The client's state: the tokens in memory, the tokens in the saved
      configuration, the answers the bank and the token endpoint will give,
      and the events so far. */
  datatype Session = Session(tokens: TokenPair, saved: TokenPair, responses: seq<Response>,
                             replies: seq<TokenReply>, log: seq<Event>)

  function Bearer(token: string): string {
    "Bearer " + token
  }

  const RefreshGrant := "refresh_token"
  const CodeGrant := "authorization_code"

  /** One GET of `url` carrying the access token held now. */
  function SendStep(s: Session, url: string): (Session, Option<Response>)
  {
    var s' := s.(log := s.log + [Sent(url, Bearer(s.tokens.accessToken))]);
    if s.responses == [] then (s', None)
    else (s'.(responses := s.responses[1..]), Some(s.responses[0]))
  }

  /** One exchange at the token endpoint; when it issues tokens, both replace
      the ones held and the configuration is saved. */
  function ExchangeStep(s: Session, grantType: string, grant: string): (Session, bool)
  {
    var s' := s.(log := s.log + [TokenRequested(grantType, grant)]);
    if s.replies == [] then (s', false)
    else
      var s'' := s'.(replies := s.replies[1..]);
      match s.replies[0]
      case Refused => (s'', false)
      case Issued(access, refresh) =>
        var t := TokenPair(access, refresh);
        (s''.(tokens := t, saved := t, log := s''.log + [Saved(t)]), true)
  }

  /** `sparebank1RefreshToken`: the refresh-token grant with the refresh token held now. */
  function RefreshStep(s: Session): (Session, bool)
  {
    ExchangeStep(s, RefreshGrant, s.tokens.refreshToken)
  }

  /** `sparebank1Get(url, firstAttempt)`. */
  function GetFrom(s: Session, url: string, firstAttempt: bool): (Session, Result<string, GetError>)
    decreases if firstAttempt then 1 else 0
  {
    var (s1, response) := SendStep(s, url);
    match response
    case None => (s1, Failure(NetworkError))
    case Some(resp) =>
      if IsOk(resp.status) then (s1, Success(resp.body))
      else if resp.status == Unauthorized && firstAttempt then
        var (s2, refreshed) := RefreshStep(s1);
        if refreshed then GetFrom(s2, url, false) else (s2, Failure(RefreshFailed))
      else (s1, Failure(HttpError(resp.status)))
  }

  function CountSends(events: seq<Event>): (n: nat)
    ensures n <= |events|
  {
    if events == [] then 0 else (if events[0].Sent? then 1 else 0) + CountSends(events[1..])
  }

  function CountRefreshes(events: seq<Event>): (n: nat)
    ensures n <= |events|
  {
    if events == [] then 0
    else (if events[0].TokenRequested? && events[0].grantType == RefreshGrant then 1 else 0) + CountRefreshes(events[1..])
  }

  /** The events one call adds: a first GET with the token held at the call;
      after a 401 alone, a refresh with the refresh token held at the call;
      after a refresh that issued tokens, the save of the new pair and then
      one more GET of the same URL with the new access token. */
  lemma GetEvents(s: Session, url: string)
    ensures var t := GetFrom(s, url, true).0;
            && |s.log| < |t.log| && t.log[..|s.log|] == s.log
            && var e := t.log[|s.log|..];
            && (|e| == 1 || |e| == 2 || |e| == 4)
            && e[0] == Sent(url, Bearer(s.tokens.accessToken))
            && (|e| > 1 <==> s.responses != [] && s.responses[0].status == Unauthorized)
            && (|e| > 1 ==> e[1] == TokenRequested(RefreshGrant, s.tokens.refreshToken))
            && (|e| == 4 <==> |e| > 1 && s.replies != [] && s.replies[0].Issued?)
            && (|e| == 4 ==> e[2] == Saved(t.tokens) && e[3] == Sent(url, Bearer(t.tokens.accessToken)))
  {
  }

  /** At most two GETs and at most one refresh per call, and a refresh only
      after a 401. */
  lemma {:induction false} GetSendsAtMostTwice(s: Session, url: string)
    ensures var t := GetFrom(s, url, true).0;
            var e := t.log[|s.log|..];
            && 1 <= CountSends(e) <= 2
            && CountRefreshes(e) <= 1
            && (CountRefreshes(e) == 1 ==> s.responses[0].status == Unauthorized)
  {
    GetEvents(s, url);
    var e := GetFrom(s, url, true).0.log[|s.log|..];
    if |e| == 1 {
      assert e[1..] == [];
    } else if |e| == 2 {
      assert e[1..][1..] == [];
    } else {
      assert e[3..][1..] == [] && e[2..][1..] == e[3..] && e[1..][1..] == e[2..];
      assert CountSends(e[3..]) == 1 && CountRefreshes(e[3..]) == 0;
      assert CountSends(e[2..]) == 1 && CountRefreshes(e[2..]) == 0;
      assert CountSends(e[1..]) == 1 && CountRefreshes(e[1..]) == 1;
    }
  }

  /** What one call returns: the body of the first ok response; after a 401
      and a refresh that issued tokens, the outcome of the retry, a second 401
      included; any other status, or a 401 on the retry, fails with it. */
  lemma GetOutcome(s: Session, url: string)
    ensures var (t, r) := GetFrom(s, url, true);
            && (s.responses == [] ==> r == Failure(NetworkError))
            && (s.responses != [] && IsOk(s.responses[0].status) ==>
                  r == Success(s.responses[0].body) && t.tokens == s.tokens)
            && (s.responses != [] && !IsOk(s.responses[0].status) && s.responses[0].status != Unauthorized ==>
                  r == Failure(HttpError(s.responses[0].status)) && t.tokens == s.tokens)
            && (s.responses != [] && s.responses[0].status == Unauthorized && (s.replies == [] || s.replies[0].Refused?) ==>
                  r == Failure(RefreshFailed) && t.tokens == s.tokens)
            && (s.responses != [] && s.responses[0].status == Unauthorized && s.replies != [] && s.replies[0].Issued? ==>
                  t.tokens == TokenPair(s.replies[0].accessToken, s.replies[0].refreshToken) &&
                  r == (if |s.responses| < 2 then Failure(NetworkError)
                        else if IsOk(s.responses[1].status) then Success(s.responses[1].body)
                        else Failure(HttpError(s.responses[1].status))))
  {
  }

  /** A 401 and then an ok response: one refresh, one retry, the retry's body. */
  lemma RefreshOnceThenOk(s: Session, url: string, body: string, a: string, r: string)
    requires |s.responses| >= 2 && s.responses[0].status == Unauthorized && s.responses[1] == Response(200, body)
    requires s.replies != [] && s.replies[0] == Issued(a, r)
    ensures var (t, res) := GetFrom(s, url, true);
            && res == Success(body)
            && t.tokens == TokenPair(a, r) && t.saved == t.tokens
            && t.log == s.log + [Sent(url, Bearer(s.tokens.accessToken)), TokenRequested(RefreshGrant, s.tokens.refreshToken),
                                 Saved(TokenPair(a, r)), Sent(url, Bearer(a))]
  {
  }

  /** A 401 on both attempts fails with 401 after exactly one refresh. */
  lemma TwoUnauthorizedFail(s: Session, url: string)
    requires |s.responses| >= 2 && s.responses[0].status == Unauthorized && s.responses[1].status == Unauthorized
    requires s.replies != [] && s.replies[0].Issued?
    ensures var (t, res) := GetFrom(s, url, true);
            res == Failure(HttpError(Unauthorized)) && CountRefreshes(t.log[|s.log|..]) == 1
  {
    GetSendsAtMostTwice(s, url);
    GetEvents(s, url);
  }

  /** Tokens that the saved configuration holds stay saved: every change of
      the pair in memory is saved before anything else is sent. */
  lemma GetKeepsTokensSaved(s: Session, url: string, firstAttempt: bool)
    requires s.saved == s.tokens
    ensures GetFrom(s, url, firstAttempt).0.saved == GetFrom(s, url, firstAttempt).0.tokens
  {
  }

  /** The client object of the script: the token pair of the configuration
      object, and the bank and token endpoint it talks to, given as the
      answers they will give. */
  class Client {
    var accessToken: string
    var refreshToken: string
    var responses: seq<Response>
    var replies: seq<TokenReply>
    ghost var saved: TokenPair
    ghost var log: seq<Event>

    ghost function State(): Session
      reads this
    {
      Session(TokenPair(accessToken, refreshToken), saved, responses, replies, log)
    }

    /** The tokens as loaded from the saved configuration. */
    constructor (tokens: TokenPair, responses: seq<Response>, replies: seq<TokenReply>)
      ensures State() == Session(tokens, tokens, responses, replies, [])
    {
      accessToken, refreshToken := tokens.accessToken, tokens.refreshToken;
      this.responses, this.replies := responses, replies;
      saved, log := tokens, [];
    }

    /** `saveConfig`: the configuration, tokens included, is written out. */
    method SaveConfig()
      modifies this`saved, this`log
      ensures saved == TokenPair(accessToken, refreshToken)
      ensures log == old(log) + [Saved(saved)]
    {
      saved := TokenPair(accessToken, refreshToken);
      log := log + [Saved(saved)];
    }

    method Send(url: string) returns (response: Option<Response>)
      modifies this
      ensures (State(), response) == SendStep(old(State()), url)
    {
      log := log + [Sent(url, Bearer(accessToken))];
      if responses == [] {
        response := None;
      } else {
        response := Some(responses[0]);
        responses := responses[1..];
      }
    }

    /** A request to the token endpoint, and on success the new pair held and saved. */
    method Exchange(grantType: string, grant: string) returns (ok: bool)
      modifies this
      ensures (State(), ok) == ExchangeStep(old(State()), grantType, grant)
    {
      log := log + [TokenRequested(grantType, grant)];
      if replies == [] {
        return false;
      }
      var reply := replies[0];
      replies := replies[1..];
      if reply.Refused? {
        return false;
      }
      accessToken := reply.accessToken;
      refreshToken := reply.refreshToken;
      SaveConfig();
      ok := true;
    }

    /** `sparebank1RefreshToken`. */
    method RefreshToken() returns (ok: bool)
      modifies this
      ensures (State(), ok) == RefreshStep(old(State()))
    {
      ok := Exchange(RefreshGrant, refreshToken);
    }

    /** The code exchange of `sparebank1Auth`, once the user has typed `code`. */
    method Authorize(code: string) returns (ok: bool)
      modifies this
      ensures (State(), ok) == ExchangeStep(old(State()), CodeGrant, code)
      ensures ok ==> saved == TokenPair(accessToken, refreshToken)
    {
      ok := Exchange(CodeGrant, code);
    }

    /** `sparebank1Get(url, firstAttempt)`. */
    method Get(url: string, firstAttempt: bool := true) returns (r: Result<string, GetError>)
      modifies this
      ensures (State(), r) == GetFrom(old(State()), url, firstAttempt)
      decreases if firstAttempt then 1 else 0
    {
      var response := Send(url);
      if response.None? {
        return Failure(NetworkError);
      }
      var status := response.value.status;
      if !IsOk(status) {
        if status == Unauthorized && firstAttempt {
          var refreshed := RefreshToken();
          if !refreshed {
            return Failure(RefreshFailed);
          }
          r := Get(url, false);
          return;
        }
        return Failure(HttpError(status));
      }
      r := Success(response.value.body);
    }
  }

  /** The query of `sparebank1Transactions`: the account's key, the window's
      calendar dates as `YYYY-MM-DD`, and `source=ALL`; `toISOString` throws
      for an instant outside the range of a `Date`. */
  function TransactionsQuery(account: Account, w: Window): (r: Result<seq<(string, string)>, DateError>)
    requires ValidInstant(w.start) && ValidInstant(w.end)
    ensures r.Failure? <==> !InstantInRange(w.start) || !InstantInRange(w.end)
    ensures r.Success? ==> |r.value| == 4 && r.value[0] == ("accountKey", account.bankKey) && r.value[3] == ("source", "ALL")
    ensures r.Success? ==> r.value[1].0 == "fromDate" && r.value[1].1 == IsoDate(w.start.date)
                           && ParseIsoDate(r.value[1].1) == Some(w.start.date)
    ensures r.Success? ==> r.value[2].0 == "toDate" && r.value[2].1 == IsoDate(w.end.date)
                           && ParseIsoDate(r.value[2].1) == Some(w.end.date)
  {
    match QueryDate(w.start)
    case Failure(e) => Failure(e)
    case Success(from) =>
      match QueryDate(w.end)
      case Failure(e) => Failure(e)
      case Success(to) => Success([("accountKey", account.bankKey), ("fromDate", from), ("toDate", to), ("source", "ALL")])
  }
}
