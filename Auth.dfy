/**
 * The session and backend-availability service of utils/Auth.js: the class
 * AuthServices with its two in-memory fields (`isServerAwake`, `token`), the
 * durable secure store behind the token cache (keys `userToken` and
 * `userData`), and the log of observable effects (progress calls, fetches,
 * sleeps). Network answers, store failures and the JSON functions are given
 * to each method as oracle parameters.
 */
module Auth {
  import opened Js
  import opened Http
  import opened WakeUp

  const TokenKey := "userToken"
  const UserDataKey := "userData"
  const SignUpPath := "/auth/signup"
  const LoginPath := "/auth/login"
  const SignUpDefaultMessage := "Error en el registro"
  const LoginDefaultMessage := "Error en el inicio de sesión"
  const NoTokenMessage := "No hay token de autenticación"
  const SessionExpiredMessage := "Sesión expirada"
  const RequestDefaultMessage := "Error en la petición"

  /** `JSON.stringify`, which the model does not implement. */
  type Stringifier = Json -> string

  /** A token the code treats as present: `if (this.token)` is false for null and for "". */
  predicate HasToken(t: Option<string>) {
    t.Some? && t.value != ""
  }

  /** `SecureStore.getItemAsync(key)` on a store that answers: the value, or null. */
  function Lookup(store: map<string, string>, key: string): Option<string> {
    if key in store then Some(store[key]) else None
  }

  /** The value `saveToken(data.token)` manages to store: the secure store accepts strings only. */
  function TokenText(v: Option<Json>): (t: Option<string>)
    ensures t.Some? <==> v.Some? && v.value.JStr?
    ensures t.Some? ==> JStr(t.value) == v.value
  {
    if v.Some? && v.value.JStr? then Some(v.value.s) else None
  }

  /** Whether the service is awake after `ensureServerIsAwake`, given the flag before it and the probe outcomes. */
  predicate WakeOk(wasAwake: bool, ready: seq<bool>)
    requires MaxAttempts <= |ready|
  {
    wasAwake || WakeSucceeds(ready)
  }

  /** The effects of `ensureServerIsAwake`: none when already awake, else the wake-up loop's. */
  function WakeEffects(wasAwake: bool, ready: seq<bool>, withProgress: bool): seq<Effect>
    requires MaxAttempts <= |ready|
  {
    if wasAwake then [] else WakeTrace(ready, withProgress)
  }

  /**
   * `const error = await response.json(); throw new Error(error.message || fallback)`
   * on a failed response. There is no catch around the parse, and `error.message`
   * on a `null` body throws before the fallback is reached.
   */
  function FailureOf(parse: Parser, res: Response, fallback: string): (e: Error)
    ensures e == SyntaxError <==> parse(res.text).None?
    ensures e == TypeError <==> parse(res.text) == Some(JNull)
    ensures parse(res.text).Some? && parse(res.text).value != JNull ==>
      var hint := Member(parse(res.text).value, "message");
      && e.Thrown?
      && (hint.Some? && Truthy(hint.value) ==> e.message == hint.value)
      && (!(hint.Some? && Truthy(hint.value)) ==> e.message == JStr(fallback))
  {
    match parse(res.text)
    case None => SyntaxError
    case Some(body) => if body == JNull then TypeError else Thrown(Or(Member(body, "message"), JStr(fallback)))
  }

  /**
   * What login and signUp return once the server is awake and the POST got
   * `res`: the parsed body when the response is OK, parses to something other
   * than null, carries a string `token` and the store accepts the write of it;
   * otherwise the error that escapes.
   */
  function CredentialOutcome(parse: Parser, res: Response, fallback: string, tokenFault: bool): (r: Result<Json>)
    ensures r.Ok? <==>
      && res.Ok()
      && parse(res.text).Some? && parse(res.text).value != JNull
      && TokenText(Member(parse(res.text).value, "token")).Some?
      && !tokenFault
    ensures r.Ok? ==> parse(res.text) == Some(r.value)
    ensures !res.Ok() ==> r == Err(FailureOf(parse, res, fallback))
    ensures res.Ok() && parse(res.text).None? ==> r == Err(SyntaxError)
    ensures res.Ok() && parse(res.text).Some? && parse(res.text).value != JNull
      && (TokenText(Member(parse(res.text).value, "token")).None? || tokenFault)
      ==> r == Err(StoreError)
  {
    if !res.Ok() then Err(FailureOf(parse, res, fallback))
    else match parse(res.text)
      case None => Err(SyntaxError)
      case Some(data) =>
        if data == JNull then Err(TypeError)
        else if TokenText(Member(data, "token")).None? || tokenFault then Err(StoreError)
        else Ok(data)
  }

  /** The store after a successful login or signUp: the token always, the profile unless its write failed. */
  function SavedSession(store: map<string, string>, token: string, profileText: string, dataFault: bool): (m: map<string, string>)
    ensures Lookup(m, TokenKey) == Some(token)
    ensures !dataFault ==> Lookup(m, UserDataKey) == Some(profileText)
    ensures dataFault ==> Lookup(m, UserDataKey) == Lookup(store, UserDataKey)
    ensures forall k :: k != TokenKey && k != UserDataKey ==> Lookup(m, k) == Lookup(store, k)
  {
    if dataFault then store[TokenKey := token] else store[TokenKey := token][UserDataKey := profileText]
  }

  /**
   * What authenticatedRequest makes of a response other than 401: the parsed
   * body when OK (a parse failure escapes), else the server's message or the
   * default text; the raw text is never used.
   */
  function RequestOutcome(parse: Parser, res: Response): (r: Result<Json>)
    ensures r.Ok? <==> res.Ok() && parse(res.text).Some?
    ensures r.Ok? ==> parse(res.text) == Some(r.value)
    ensures parse(res.text).None? ==> r == Err(SyntaxError)
    ensures !res.Ok() ==> r == Err(FailureOf(parse, res, RequestDefaultMessage))
  {
    if !res.Ok() then Err(FailureOf(parse, res, RequestDefaultMessage))
    else match parse(res.text)
      case None => Err(SyntaxError)
      case Some(data) => Ok(data)
  }

  /** The token authenticatedRequest uses: `this.token || await this.getToken()`. */
  function ResolvedToken(cached: Option<string>, store: map<string, string>, readFault: bool): (t: Option<string>)
    ensures HasToken(cached) ==> t == cached
    ensures !HasToken(cached) && readFault ==> t == None
    ensures !HasToken(cached) && !readFault ==> t == Lookup(store, TokenKey)
  {
    if HasToken(cached) then cached else if readFault then None else Lookup(store, TokenKey)
  }

  /** The cached token after that resolution: a cache miss caches whatever the store returned, null included. */
  function CachedAfterResolve(cached: Option<string>, store: map<string, string>, readFault: bool): (t: Option<string>)
    ensures HasToken(cached) || readFault ==> t == cached
    ensures !HasToken(cached) && !readFault ==> t == Lookup(store, TokenKey)
  {
    if HasToken(cached) || readFault then cached else Lookup(store, TokenKey)
  }

  /** The request authenticatedRequest sends: bearer header, and a body only when `body` is truthy. */
  function GatewayRequest(endpoint: string, verb: string, token: string, body: Json): (req: Request)
    ensures req.url == ApiBaseUrl + endpoint && req.verb == verb
    ensures req.headers == BearerHeaders(token)
    ensures req.body.Some? <==> Truthy(body)
    ensures req.body.Some? ==> req.body.value == body
  {
    Request(verb, ApiBaseUrl + endpoint, BearerHeaders(token), if Truthy(body) then Some(body) else None)
  }

  class AuthServices {
    var isServerAwake: bool
    var token: Option<string>
    /** What the secure store holds. */
    var store: map<string, string>
    /** Everything observable the service has done so far, oldest first. */
    var effects: seq<Effect>

    /**
     * The cache holds no token the store does not: a non-empty `this.token`
     * is what the store keeps under `userToken`. The wake-up methods keep it
     * by their frames, which leave the cache and the store alone.
     */
    predicate CacheAgrees()
      reads this
    {
      HasToken(token) ==> Lookup(store, TokenKey) == token
    }

    /** A fresh service at process start: asleep, nothing cached, the store as the last run left it. */
    constructor (persisted: map<string, string>)
      ensures !isServerAwake && token == None && store == persisted && effects == []
      ensures CacheAgrees()
    {
      isServerAwake := false;
      token := None;
      store := persisted;
      effects := [];
    }

    /**
     * One health probe. `probe` is None when fetch rejected (network failure
     * or the 10 s abort). Never fails; sets the flag on success only.
     */
    method CheckServerStatus(parse: Parser, probe: Option<Response>) returns (awake: bool)
      modifies this`isServerAwake, this`effects
      ensures awake == ProbeReady(parse, probe)
      ensures isServerAwake == (old(isServerAwake) || awake)
      ensures effects == old(effects) + [Send(StatusRequest())]
    {
      effects := effects + [Send(StatusRequest())];
      if probe.None? {
        return false;
      }
      var data := parse(probe.value.text);
      if data.None? || data.value == JNull {
        return false;
      }
      if Member(data.value, "status") == Some(JStr(ReadyStatus)) {
        isServerAwake := true;
        return true;
      }
      return false;
    }

    /** One turn of the wake-up loop: report progress when a callback is given, then probe. */
    method Attempt(parse: Parser, probe: Option<Response>, attempt: nat, withProgress: bool) returns (awake: bool)
      modifies this`isServerAwake, this`effects
      ensures awake == ProbeReady(parse, probe)
      ensures awake ==> effects == old(effects) + AttemptEffects(attempt, withProgress)
      ensures !awake ==> effects == old(effects) + AttemptEffects(attempt, withProgress) + [Sleep(RetryDelayMs)]
      ensures isServerAwake == (old(isServerAwake) || awake)
    {
      if withProgress {
        effects := effects + [Progress(attempt, MaxAttempts)];
      }
      awake := CheckServerStatus(parse, probe);
      if !awake {
        effects := effects + [Sleep(RetryDelayMs)];
      }
    }

    /**
     * Probes up to twelve times, reporting progress before each probe and
     * sleeping 5 s after each failed one; fails once the ceiling is reached.
     * `probes[i]` is the answer to probe number `i + 1`.
     */
    method WakeUpServer(parse: Parser, probes: seq<Option<Response>>, withProgress: bool) returns (r: Result<bool>)
      requires MaxAttempts <= |probes|
      modifies this`isServerAwake, this`effects
      ensures var ready := Readiness(parse, probes);
        r == if WakeSucceeds(ready) then Ok(true) else Err(Thrown(JStr(WakeFailureMessage)))
      ensures effects == old(effects) + WakeTrace(Readiness(parse, probes), withProgress)
      ensures isServerAwake == (old(isServerAwake) || r.Ok?)
    {
      ghost var ready := Readiness(parse, probes);
      var attempts := 0;
      while attempts < MaxAttempts
        invariant 0 <= attempts <= MaxAttempts
        invariant attempts <= FirstReady(ready, 0)
        invariant effects == old(effects) + FailedTurns(attempts, withProgress)
        invariant isServerAwake == old(isServerAwake)
      {
        var awake := Attempt(parse, probes[attempts], attempts + 1, withProgress);
        LogTurn(old(effects), parse, probes, attempts, awake, withProgress);
        if awake {
          return Ok(true);
        }
        attempts := attempts + 1;
      }
      LogExhausted(old(effects), ready, withProgress);
      return Err(Thrown(JStr(WakeFailureMessage)));
    }

    /** Runs the wake-up loop unless the server is already known to be awake. */
    method EnsureServerIsAwake(parse: Parser, probes: seq<Option<Response>>, withProgress: bool) returns (r: Result<()>)
      requires MaxAttempts <= |probes|
      modifies this`isServerAwake, this`effects
      ensures var ready := Readiness(parse, probes);
        && (r.Ok? <==> WakeOk(old(isServerAwake), ready))
        && effects == old(effects) + WakeEffects(old(isServerAwake), ready, withProgress)
      ensures r.Err? ==> r.error == Thrown(JStr(WakeFailureMessage))
      ensures isServerAwake == r.Ok?
    {
      if !isServerAwake {
        var w := WakeUpServer(parse, probes, withProgress);
        if w.Err? {
          return Err(w.error);
        }
      }
      return Ok(());
    }

    /** Writes the token to the store, and caches it only once the write succeeded; a failed write propagates. */
    method SaveToken(value: Option<Json>, fault: bool) returns (r: Result<()>)
      modifies this`token, this`store
      ensures r.Ok? <==> TokenText(value).Some? && !fault
      ensures r.Ok? ==> token == TokenText(value) && store == old(store)[TokenKey := TokenText(value).value]
      ensures r.Err? ==> r.error == StoreError && token == old(token) && store == old(store)
      ensures old(CacheAgrees()) ==> CacheAgrees()
    {
      var text := TokenText(value);
      if text.None? || fault {
        return Err(StoreError);
      }
      store := store[TokenKey := text.value];
      token := text;
      return Ok(());
    }

    /**
     * The cached token when there is one (no store read); otherwise the
     * stored one, which is cached, null included. A failed read yields null
     * and leaves the cache alone. Never fails.
     */
    method GetToken(fault: bool) returns (t: Option<string>)
      modifies this`token
      ensures t == ResolvedToken(old(token), old(store), fault)
      ensures token == CachedAfterResolve(old(token), old(store), fault)
      ensures old(CacheAgrees()) ==> CacheAgrees()
    {
      if HasToken(token) {
        return token;
      }
      if fault {
        return None;
      }
      var loaded := Lookup(store, TokenKey);
      token := loaded;
      return loaded;
    }

    /** Writes the whole profile as JSON text; a failed write is swallowed. */
    method SaveUserData(stringify: Stringifier, data: Json, fault: bool)
      modifies this`store
      ensures store == if fault then old(store) else old(store)[UserDataKey := stringify(data)]
      ensures old(CacheAgrees()) ==> CacheAgrees()
    {
      if !fault {
        store := store[UserDataKey := stringify(data)];
      }
    }

    /** The stored profile, or null when the read fails, the key is missing or empty, or the text is not JSON. */
    method GetUserData(parse: Parser, fault: bool) returns (v: Json)
      ensures fault || UserDataKey !in store || store[UserDataKey] == "" ==> v == JNull
      ensures !fault && UserDataKey in store && store[UserDataKey] != "" ==>
        v == parse(store[UserDataKey]).GetOr(JNull)
    {
      if fault {
        return JNull;
      }
      var stored := Lookup(store, UserDataKey);
      if stored.None? || stored.value == "" {
        return JNull;
      }
      return parse(stored.value).GetOr(JNull);
    }

    /**
     * Deletes both keys, then clears the cache and the awake flag. A failed
     * delete is reported as false and stops before the fields are reset.
     */
    method Logout(fault1: bool, fault2: bool) returns (ok: bool)
      modifies this`store, this`token, this`isServerAwake
      ensures ok == (!fault1 && !fault2)
      ensures ok ==> store == old(store) - {TokenKey, UserDataKey} && token == None && !isServerAwake
      ensures !ok ==> token == old(token) && isServerAwake == old(isServerAwake)
      ensures !ok ==> store == if fault1 then old(store) else old(store) - {TokenKey}
      ensures old(CacheAgrees()) && (ok || fault1) ==> CacheAgrees()
      ensures !fault1 && fault2 && HasToken(old(token)) ==> !CacheAgrees()
    {
      if fault1 {
        return false;
      }
      store := store - {TokenKey};
      if fault2 {
        return false;
      }
      store := store - {UserDataKey};
      token := None;
      isServerAwake := false;
      return true;
    }

    /** The flow login and signUp share: wake up, POST the credentials, then persist token and profile. */
    method PostCredentials(parse: Parser, stringify: Stringifier, probes: seq<Option<Response>>, withProgress: bool,
                           path: string, credentials: Json, fallback: string,
                           res: Response, tokenFault: bool, dataFault: bool) returns (r: Result<Json>)
      requires MaxAttempts <= |probes|
      modifies this
      ensures var ready := Readiness(parse, probes);
        var woke := WakeOk(old(isServerAwake), ready);
        && isServerAwake == woke
        && (!woke ==> r == Err(Thrown(JStr(WakeFailureMessage)))
                      && effects == old(effects) + WakeEffects(old(isServerAwake), ready, withProgress))
        && (woke ==> r == CredentialOutcome(parse, res, fallback, tokenFault)
                     && effects == old(effects) + WakeEffects(old(isServerAwake), ready, withProgress)
                                   + [Send(Request("POST", ApiBaseUrl + path, JsonHeaders(), Some(credentials)))])
      ensures r.Ok? ==>
        && token == TokenText(Member(r.value, "token"))
        && store == SavedSession(old(store), TokenText(Member(r.value, "token")).value, stringify(r.value), dataFault)
      ensures r.Err? ==> token == old(token) && store == old(store)
      ensures old(CacheAgrees()) ==> CacheAgrees()
    {
      var awake := EnsureServerIsAwake(parse, probes, withProgress);
      if awake.Err? {
        return Err(awake.error);
      }
      effects := effects + [Send(Request("POST", ApiBaseUrl + path, JsonHeaders(), Some(credentials)))];
      if !res.Ok() {
        return Err(FailureOf(parse, res, fallback));
      }
      var data := parse(res.text);
      if data.None? {
        return Err(SyntaxError);
      }
      if data.value == JNull {
        return Err(TypeError);
      }
      var saved := SaveToken(Member(data.value, "token"), tokenFault);
      if saved.Err? {
        return Err(saved.error);
      }
      SaveUserData(stringify, data.value, dataFault);
      return Ok(data.value);
    }

    /** `signUp(username, email, password, onProgress)`. */
    method SignUp(parse: Parser, stringify: Stringifier, probes: seq<Option<Response>>, withProgress: bool,
                  username: string, email: string, password: string,
                  res: Response, tokenFault: bool, dataFault: bool) returns (r: Result<Json>)
      requires MaxAttempts <= |probes|
      modifies this
      ensures var ready := Readiness(parse, probes);
        var woke := WakeOk(old(isServerAwake), ready);
        var body := JObj(map["username" := JStr(username), "email" := JStr(email), "password" := JStr(password)]);
        && isServerAwake == woke
        && (!woke ==> r == Err(Thrown(JStr(WakeFailureMessage)))
                      && effects == old(effects) + WakeEffects(old(isServerAwake), ready, withProgress))
        && (woke ==> r == CredentialOutcome(parse, res, SignUpDefaultMessage, tokenFault)
                     && effects == old(effects) + WakeEffects(old(isServerAwake), ready, withProgress)
                                   + [Send(Request("POST", ApiBaseUrl + SignUpPath, JsonHeaders(), Some(body)))])
      ensures r.Ok? ==>
        && token == TokenText(Member(r.value, "token"))
        && store == SavedSession(old(store), TokenText(Member(r.value, "token")).value, stringify(r.value), dataFault)
      ensures r.Err? ==> token == old(token) && store == old(store)
      ensures old(CacheAgrees()) ==> CacheAgrees()
    {
      var body := JObj(map["username" := JStr(username), "email" := JStr(email), "password" := JStr(password)]);
      r := PostCredentials(parse, stringify, probes, withProgress, SignUpPath, body, SignUpDefaultMessage,
                           res, tokenFault, dataFault);
    }

    /** `login(email, password, onProgress)`. */
    method Login(parse: Parser, stringify: Stringifier, probes: seq<Option<Response>>, withProgress: bool,
                 email: string, password: string,
                 res: Response, tokenFault: bool, dataFault: bool) returns (r: Result<Json>)
      requires MaxAttempts <= |probes|
      modifies this
      ensures var ready := Readiness(parse, probes);
        var woke := WakeOk(old(isServerAwake), ready);
        var body := JObj(map["email" := JStr(email), "password" := JStr(password)]);
        && isServerAwake == woke
        && (!woke ==> r == Err(Thrown(JStr(WakeFailureMessage)))
                      && effects == old(effects) + WakeEffects(old(isServerAwake), ready, withProgress))
        && (woke ==> r == CredentialOutcome(parse, res, LoginDefaultMessage, tokenFault)
                     && effects == old(effects) + WakeEffects(old(isServerAwake), ready, withProgress)
                                   + [Send(Request("POST", ApiBaseUrl + LoginPath, JsonHeaders(), Some(body)))])
      ensures r.Ok? ==>
        && token == TokenText(Member(r.value, "token"))
        && store == SavedSession(old(store), TokenText(Member(r.value, "token")).value, stringify(r.value), dataFault)
      ensures r.Err? ==> token == old(token) && store == old(store)
      ensures old(CacheAgrees()) ==> CacheAgrees()
    {
      var body := JObj(map["email" := JStr(email), "password" := JStr(password)]);
      r := PostCredentials(parse, stringify, probes, withProgress, LoginPath, body, LoginDefaultMessage,
                           res, tokenFault, dataFault);
    }

    /**
     * `authenticatedRequest(endpoint, method, body)`: wake up without progress,
     * resolve the token, refuse without one before any request, send with the
     * bearer header, and on 401 log out before failing.
     */
    method AuthenticatedRequest(parse: Parser, probes: seq<Option<Response>>,
                                endpoint: string, verb: string, body: Json,
                                readFault: bool, res: Response, logoutFault1: bool, logoutFault2: bool)
      returns (r: Result<Json>)
      requires MaxAttempts <= |probes|
      modifies this
      ensures var ready := Readiness(parse, probes);
        var woke := WakeOk(old(isServerAwake), ready);
        var wake := old(effects) + WakeEffects(old(isServerAwake), ready, false);
        var t := ResolvedToken(old(token), old(store), readFault);
        var cached := CachedAfterResolve(old(token), old(store), readFault);
        && (!woke ==> r == Err(Thrown(JStr(WakeFailureMessage))) && effects == wake
                      && !isServerAwake && token == old(token) && store == old(store))
        && (woke && !HasToken(t) ==>
              && r == Err(Thrown(JStr(NoTokenMessage))) && effects == wake
              && isServerAwake && token == cached && store == old(store))
        && (woke && HasToken(t) ==> effects == wake + [Send(GatewayRequest(endpoint, verb, t.value, body))])
        && (woke && HasToken(t) && res.status == 401 ==>
              && r == Err(Thrown(JStr(SessionExpiredMessage)))
              && (!logoutFault1 && !logoutFault2 ==>
                    token == None && !isServerAwake && store == old(store) - {TokenKey, UserDataKey})
              && (logoutFault1 || logoutFault2 ==>
                    token == cached && isServerAwake
                    && store == if logoutFault1 then old(store) else old(store) - {TokenKey}))
        && (woke && HasToken(t) && res.status != 401 ==>
              r == RequestOutcome(parse, res) && isServerAwake && token == cached && store == old(store))
      ensures old(CacheAgrees()) && !(res.status == 401 && !logoutFault1 && logoutFault2) ==> CacheAgrees()
    {
      var awake := EnsureServerIsAwake(parse, probes, false);
      if awake.Err? {
        return Err(awake.error);
      }
      var t := token;
      if !HasToken(t) {
        t := GetToken(readFault);
      }
      if !HasToken(t) {
        return Err(Thrown(JStr(NoTokenMessage)));
      }
      effects := effects + [Send(GatewayRequest(endpoint, verb, t.value, body))];
      if !res.Ok() {
        if res.status == 401 {
          var _ := Logout(logoutFault1, logoutFault2);
          return Err(Thrown(JStr(SessionExpiredMessage)));
        }
        return Err(FailureOf(parse, res, RequestDefaultMessage));
      }
      var data := parse(res.text);
      if data.None? {
        return Err(SyntaxError);
      }
      return Ok(data.value);
    }
  }
}
