/**
 * What a client of AuthServices (utils/Auth.js) can rely on across several
 * calls: each method below starts a fresh service over a given secure store,
 * makes a short sequence of calls and states what the caller sees.
 */
module AuthScenarios {
  import opened Js
  import opened Http
  import opened WakeUp
  import opened Auth

  /** checkServerStatus answers true exactly when the probe is ready, and the flag then records it. */
  method ProbeOnce(persisted: map<string, string>, parse: Parser, probe: Option<Response>) returns (awake: bool, flag: bool)
    ensures awake == ProbeReady(parse, probe)
    ensures flag == awake
  {
    var s := new AuthServices(persisted);
    awake := s.CheckServerStatus(parse, probe);
    flag := s.isServerAwake;
  }

  /**
   * A token that was saved is what getToken answers next: from the cache when
   * it is non-empty, from the store otherwise. A failed save leaves getToken
   * with what the store held before.
   */
  method SaveThenGetToken(persisted: map<string, string>, value: string, saveFault: bool, readFault: bool)
    returns (saved: bool, t: Option<string>)
    ensures saved == !saveFault
    ensures !saveFault ==> t == if value != "" || !readFault then Some(value) else None
    ensures saveFault ==> t == if readFault then None else Lookup(persisted, TokenKey)
  {
    var s := new AuthServices(persisted);
    var r := s.SaveToken(Some(JStr(value)), saveFault);
    saved := r.Ok?;
    t := s.GetToken(readFault);
  }

  /** A non-string token (a missing `data.token`, say) is refused and never cached. */
  method SaveNonStringToken(persisted: map<string, string>, value: Json, readFault: bool)
    returns (saved: bool, t: Option<string>)
    requires !value.JStr?
    ensures !saved
    ensures t == if readFault then None else Lookup(persisted, TokenKey)
  {
    var s := new AuthServices(persisted);
    var r := s.SaveToken(Some(value), false);
    saved := r.Ok?;
    t := s.GetToken(readFault);
  }

  /**
   * The profile saved with saveUserData is what getUserData answers when
   * JSON.parse undoes JSON.stringify on it and neither store call fails.
   */
  method SaveThenGetProfile(persisted: map<string, string>, parse: Parser, stringify: Stringifier,
                            profile: Json, writeFault: bool, readFault: bool) returns (v: Json)
    ensures readFault ==> v == JNull
    ensures !writeFault && !readFault && stringify(profile) != "" && parse(stringify(profile)) == Some(profile)
      ==> v == profile
    ensures !writeFault && stringify(profile) == "" ==> v == JNull
  {
    var s := new AuthServices(persisted);
    s.SaveUserData(stringify, profile, writeFault);
    v := s.GetUserData(parse, readFault);
  }

  /** After a successful logout getToken finds nothing, in the cache or in the store. */
  method LogoutThenGetToken(persisted: map<string, string>, value: string, readFault: bool)
    returns (ok: bool, t: Option<string>)
    ensures ok
    ensures t == None
  {
    var s := new AuthServices(persisted);
    var _ := s.SaveToken(Some(JStr(value)), false);
    ok := s.Logout(false, false);
    t := s.GetToken(readFault);
  }

  /**
   * A logout whose second delete fails has already removed the stored token
   * but keeps the cached one: getToken still answers it, and the token
   * authenticatedRequest would send is the deleted one.
   */
  method HalfLogout(persisted: map<string, string>, value: string, readFault: bool)
    returns (ok: bool, stored: Option<string>, t: Option<string>, sent: Option<string>)
    requires value != ""
    ensures !ok
    ensures stored == None
    ensures t == Some(value)
    ensures sent == Some(value)
  {
    var s := new AuthServices(persisted);
    var _ := s.SaveToken(Some(JStr(value)), false);
    ok := s.Logout(false, true);
    stored := Lookup(s.store, TokenKey);
    sent := ResolvedToken(s.token, s.store, readFault);
    t := s.GetToken(readFault);
  }

  /** Logging out twice leaves the store as logging out once does: without the two session keys. */
  method LogoutTwice(persisted: map<string, string>) returns (first: map<string, string>, second: map<string, string>)
    ensures first == second
    ensures first == persisted - {TokenKey, UserDataKey}
    ensures forall k :: k != TokenKey && k != UserDataKey ==> Lookup(second, k) == Lookup(persisted, k)
  {
    var s := new AuthServices(persisted);
    var _ := s.Logout(false, false);
    first := s.store;
    var _ := s.Logout(false, false);
    second := s.store;
  }

  /**
   * Once the server is known to be awake, ensureServerIsAwake does nothing
   * observable: a second call adds no probe, no progress call and no sleep.
   */
  method EnsureTwice(persisted: map<string, string>, parse: Parser, probes: seq<Option<Response>>,
                     again: seq<Option<Response>>, withProgress: bool)
    returns (first: Result<()>, second: Result<()>, before: seq<Effect>, after: seq<Effect>)
    requires MaxAttempts <= |probes| && MaxAttempts <= |again|
    ensures first.Ok? <==> WakeSucceeds(Readiness(parse, probes))
    ensures before == WakeTrace(Readiness(parse, probes), withProgress)
    ensures first.Ok? ==> second.Ok? && after == before
  {
    var s := new AuthServices(persisted);
    first := s.EnsureServerIsAwake(parse, probes, withProgress);
    before := s.effects;
    second := s.EnsureServerIsAwake(parse, again, withProgress);
    after := s.effects;
  }

  /**
   * With no token in the store, authenticatedRequest fails before it sends
   * anything of its own: the only requests are the health checks of the
   * wake-up.
   */
  method RequestWithoutToken(persisted: map<string, string>, parse: Parser, probes: seq<Option<Response>>,
                             endpoint: string, verb: string, body: Json, readFault: bool, res: Response)
    returns (r: Result<Json>, log: seq<Effect>)
    requires MaxAttempts <= |probes|
    requires !HasToken(Lookup(persisted, TokenKey))
    ensures WakeSucceeds(Readiness(parse, probes)) ==> r == Err(Thrown(JStr(NoTokenMessage)))
    ensures !WakeSucceeds(Readiness(parse, probes)) ==> r == Err(Thrown(JStr(WakeFailureMessage)))
    ensures OnlyStatusRequests(log)
  {
    var s := new AuthServices(persisted);
    r := s.AuthenticatedRequest(parse, probes, endpoint, verb, body, readFault, res, false, false);
    log := s.effects;
    WakeTraceOnlyProbes(Readiness(parse, probes), false);
  }

  /**
   * A 401 from the gateway ends the session: the call fails with "Sesión
   * expirada", the last request sent carries the stored token, and a later
   * getToken finds nothing.
   */
  method ExpiredSession(persisted: map<string, string>, parse: Parser, probes: seq<Option<Response>>,
                        endpoint: string, verb: string, body: Json, res: Response)
    returns (r: Result<Json>, sent: Option<Request>, t: Option<string>)
    requires MaxAttempts <= |probes|
    requires HasToken(Lookup(persisted, TokenKey))
    requires res.status == 401
    ensures WakeSucceeds(Readiness(parse, probes)) ==>
      && r == Err(Thrown(JStr(SessionExpiredMessage)))
      && sent == Some(GatewayRequest(endpoint, verb, persisted[TokenKey], body))
      && t == None
  {
    var s := new AuthServices(persisted);
    r := s.AuthenticatedRequest(parse, probes, endpoint, verb, body, false, res, false, false);
    sent := if |s.effects| > 0 && s.effects[|s.effects| - 1].Send? then Some(s.effects[|s.effects| - 1].request) else None;
    t := s.GetToken(false);
  }

  /** A successful login leaves its token for every later getToken, whatever the store then answers. */
  method LoginThenGetToken(persisted: map<string, string>, parse: Parser, stringify: Stringifier,
                           probes: seq<Option<Response>>, email: string, password: string,
                           res: Response, dataFault: bool, readFault: bool)
    returns (r: Result<Json>, t: Option<string>)
    requires MaxAttempts <= |probes|
    ensures r.Ok? <==> WakeSucceeds(Readiness(parse, probes)) && CredentialOutcome(parse, res, LoginDefaultMessage, false).Ok?
    ensures r.Ok? && TokenText(Member(r.value, "token")) != Some("") ==> t == TokenText(Member(r.value, "token"))
    ensures r.Ok? && !readFault ==> t == TokenText(Member(r.value, "token"))
  {
    var s := new AuthServices(persisted);
    r := s.Login(parse, stringify, probes, false, email, password, res, false, dataFault);
    t := s.GetToken(readFault);
  }

  /**
   * A rejected login fails with the server's message, or with "Error en el
   * inicio de sesión" when it gives none, and touches neither the cache nor
   * the store.
   */
  method LoginRejected(persisted: map<string, string>, parse: Parser, stringify: Stringifier,
                       probes: seq<Option<Response>>, email: string, password: string, res: Response)
    returns (r: Result<Json>, cached: Option<string>, stored: map<string, string>)
    requires MaxAttempts <= |probes|
    requires !res.Ok()
    ensures WakeSucceeds(Readiness(parse, probes)) ==> r == Err(FailureOf(parse, res, LoginDefaultMessage))
    ensures WakeSucceeds(Readiness(parse, probes)) && parse(res.text).Some? && Truthy(Member(parse(res.text).value, "message").GetOr(JNull))
      ==> r == Err(Thrown(Member(parse(res.text).value, "message").value))
    ensures cached == None && stored == persisted
  {
    var s := new AuthServices(persisted);
    r := s.Login(parse, stringify, probes, false, email, password, res, false, false);
    cached := s.token;
    stored := s.store;
  }
}
