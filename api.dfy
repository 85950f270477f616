/**
 * The mobile client's HTTP layer: base-URL selection, the three auth calls, and the
 * request and response interceptors, all working against the one storage entry that
 * holds the session token.
 *
 * Device storage is a `TokenStore` object; whether it rejects reads or writes during a
 * call is an input (`Faults`). Each remote endpoint is a total function from the request
 * body to the outcome the interceptors see.
 */
module Api {
  import opened Wrappers
  import opened Text

  const TokenKey := "userToken"
  const DefaultDebuggerHost := "192.168.1.4:8082"
  const EmulatorBaseUrl := "http://10.0.2.2:8082/api"
  const ProductionBaseUrl := "http://192.168.1.4:8082/api"

  datatype Platform = Android | Ios | Web

  /** `Constants.expoConfig?.hostUri || '192.168.1.4:8082'` */
  function DebuggerHost(hostUri: Option<string>): string
  {
    if Truthy(hostUri) then hostUri.value else DefaultDebuggerHost
  }

  /** `host` is the part of `debuggerHost` before its first ':' (all of it when there is none). */
  predicate IsHostPart(host: string, debuggerHost: string)
  {
    host <= debuggerHost && ':' !in host && (|host| == |debuggerHost| || debuggerHost[|host|] == ':')
  }

  /** The API base URL for the running build (`__DEV__`), platform and Expo host. */
  function GetBaseUrl(dev: bool, platform: Platform, hostUri: Option<string>): (url: string)
    ensures !dev ==> url == ProductionBaseUrl
    ensures dev && platform == Android ==> url == EmulatorBaseUrl
    ensures dev && platform != Android ==>
              && |url| >= 16 && url[..7] == "http://" && url[|url| - 9..] == ":8082/api"
              && IsHostPart(url[7..|url| - 9], DebuggerHost(hostUri))
  {
    var localhost := Split(DebuggerHost(hostUri), ':')[0];
    FirstPiece(DebuggerHost(hostUri), ':');
    if dev then
      if platform == Android then EmulatorBaseUrl
      else if platform == Ios then "http://" + localhost + ":8082/api"
      else "http://" + localhost + ":8082/api"
    else ProductionBaseUrl
  }

  /** Whether device storage rejects reads (`getItem`) and writes (`setItem`, `removeItem`) during one call. */
  datatype Faults = Faults(readFails: bool, writeFails: bool)

  /** How a request failed, as axios reports it to the response interceptor. */
  datatype HttpError =
    | ErrorResponse(status: int, message: Option<string>)  // a non-2xx answer; `message` is `response.data.message`
    | NoResponse                                          // sent, but nothing came back
    | SetupFailure                                        // the request could not be built

  /** A value thrown (a rejected promise) by the client code. */
  datatype Thrown =
    | AxiosError(cause: HttpError)
    | StorageError
    | TypeError
    | PlainError(message: string)

  /** `error.response?.data?.message`, kept only when it is a non-empty string. */
  function ServerMessage(e: Thrown): (m: Option<string>)
    ensures m.Some? ==> m.value != "" && e.AxiosError? && e.cause.ErrorResponse? && e.cause.message == m
    ensures e.AxiosError? && e.cause.ErrorResponse? && Truthy(e.cause.message) ==> m == e.cause.message
  {
    if e.AxiosError? && e.cause.ErrorResponse? && Truthy(e.cause.message) then e.cause.message else None
  }

  /** `AsyncStorage.getItem('userToken')` read off the entries. */
  function StoredToken(entries: map<string, string>): Option<string>
  {
    if TokenKey in entries then Some(entries[TokenKey]) else None
  }

  datatype Credentials = Credentials(username: string, password: string)
  datatype SignupBody = SignupBody(username: string, email: string, password: string, role: seq<string>)
  /** The `data` of a successful sign-in response: the fields the client reads. */
  datatype JwtData = JwtData(token: Option<string>)

  /** `POST /auth/signin`; a successful answer may lack `data` (`None`). */
  type SigninEndpoint = Credentials -> Result<Option<JwtData>, HttpError>
  /** `POST /auth/signup`. */
  type SignupEndpoint = SignupBody -> Result<(), HttpError>

  /** The storage entries after a call, and what the call returned or threw. */
  datatype Effect<T> = Effect(entries: map<string, string>, outcome: Result<T, Thrown>)
  /** The storage entries after the response interceptor ran, and the error it re-rejects with. */
  datatype Rejection = Rejection(entries: map<string, string>, thrown: Thrown)

  /** Device storage (AsyncStorage), of which the client uses the entry `TokenKey`. */
  class TokenStore {
    var entries: map<string, string>

    constructor (persisted: map<string, string>)
      ensures entries == persisted
    {
      entries := persisted;
    }

    method GetItem(key: string, faults: Faults) returns (r: Result<Option<string>, Thrown>)
      ensures faults.readFails ==> r == Failure(StorageError)
      ensures !faults.readFails ==> r == Success(if key in entries then Some(entries[key]) else None)
    {
      if faults.readFails {
        r := Failure(StorageError);
      } else if key in entries {
        r := Success(Some(entries[key]));
      } else {
        r := Success(None);
      }
    }

    method SetItem(key: string, value: string, faults: Faults) returns (failure: Option<Thrown>)
      modifies this
      ensures faults.writeFails ==> failure == Some(StorageError) && entries == old(entries)
      ensures !faults.writeFails ==> failure == None && entries == old(entries)[key := value]
    {
      if faults.writeFails {
        failure := Some(StorageError);
      } else {
        entries := entries[key := value];
        failure := None;
      }
    }

    method RemoveItem(key: string, faults: Faults) returns (failure: Option<Thrown>)
      modifies this
      ensures faults.writeFails ==> failure == Some(StorageError) && entries == old(entries)
      ensures !faults.writeFails ==> failure == None && entries == old(entries) - {key}
    {
      if faults.writeFails {
        failure := Some(StorageError);
      } else {
        entries := entries - {key};
        failure := None;
      }
    }
  }

  /** The outgoing request's configuration, whose headers the request interceptor edits in place. */
  class RequestConfig {
    var headers: map<string, string>

    constructor ()
      ensures headers == map[]
    {
      headers := map[];
    }
  }

  /** The headers after the request interceptor saw `token` in storage. */
  function WithBearer(headers: map<string, string>, token: Option<string>): map<string, string>
  {
    if Truthy(token) then headers["Authorization" := "Bearer " + token.value] else headers
  }

  /** The token of an `Authorization: Bearer <token>` header (section 2.1 of RFC 6750). */
  function BearerToken(header: string): Option<string>
  {
    if |header| > 7 && header[..7] == "Bearer " then Some(header[7..]) else None
  }

  /** The header is set exactly when a truthy token is stored, and it carries that token. */
  lemma BearerHeaderCarriesToken(headers: map<string, string>, token: Option<string>)
    requires "Authorization" !in headers
    ensures "Authorization" in WithBearer(headers, token) <==> Truthy(token)
    ensures Truthy(token) ==> BearerToken(WithBearer(headers, token)["Authorization"]) == token
    ensures forall h :: h != "Authorization" ==>
              (h in WithBearer(headers, token) <==> h in headers) &&
              (h in headers ==> WithBearer(headers, token)[h] == headers[h])
  {
    if Truthy(token) {
      var header := "Bearer " + token.value;
      assert header[..7] == "Bearer ";
      assert header[7..] == token.value;
    }
  }

  /** The request interceptor: attach the stored token, if any, as a bearer credential. */
  method InterceptRequest(storage: TokenStore, config: RequestConfig, faults: Faults) returns (rejected: Option<Thrown>)
    modifies config
    ensures faults.readFails ==> rejected == Some(StorageError) && config.headers == old(config.headers)
    ensures !faults.readFails ==>
              rejected == None && config.headers == WithBearer(old(config.headers), StoredToken(storage.entries))
  {
    var token := storage.GetItem(TokenKey, faults);
    if token.Failure? {
      rejected := Some(token.error);
      return;
    }
    if Truthy(token.value) {
      config.headers := config.headers["Authorization" := "Bearer " + token.value.value];
    }
    rejected := None;
  }

  /** What the response interceptor does with a failed request. */
  function OnResponseError(entries: map<string, string>, e: HttpError, faults: Faults): (r: Rejection)
    ensures r.entries != entries ==> e.ErrorResponse? && e.status == 401 && r.entries == entries - {TokenKey}
    ensures e.ErrorResponse? && e.status == 401 && !faults.writeFails ==> TokenKey !in r.entries
    ensures !faults.writeFails ==> r.thrown == AxiosError(e)
    ensures !(e.ErrorResponse? && e.status == 401) ==> r.thrown == AxiosError(e)
  {
    if e.ErrorResponse? && e.status == 401 then
      if faults.writeFails then Rejection(entries, StorageError)
      else Rejection(entries - {TokenKey}, AxiosError(e))
    else Rejection(entries, AxiosError(e))
  }

  /** The response interceptor's error handler: a 401 drops the stored token; the error is re-rejected. */
  method InterceptResponseError(storage: TokenStore, e: HttpError, faults: Faults) returns (thrown: Thrown)
    modifies storage
    ensures Rejection(storage.entries, thrown) == OnResponseError(old(storage.entries), e, faults)
  {
    thrown := AxiosError(e);
    if e.ErrorResponse? && e.status == 401 {
      var failed := storage.RemoveItem(TokenKey, faults);
      if failed.Some? {
        thrown := failed.value;
      }
    }
  }

  /** `authApi.login`: the storage change and the result of one sign-in request. */
  function LoginEffect(entries: map<string, string>, creds: Credentials, server: SigninEndpoint, faults: Faults)
    : Effect<Option<JwtData>>
  {
    if faults.readFails then Effect(entries, Failure(StorageError))
    else match server(creds)
      case Failure(e) =>
        var r := OnResponseError(entries, e, faults);
        Effect(r.entries, Failure(r.thrown))
      case Success(data) =>
        if data.None? then Effect(entries, Failure(TypeError))
        else if !Truthy(data.value.token) then Effect(entries, Success(data))
        else if faults.writeFails then Effect(entries, Failure(StorageError))
        else Effect(entries[TokenKey := data.value.token.value], Success(data))
  }

  method Login(storage: TokenStore, username: string, password: string, server: SigninEndpoint, faults: Faults)
    returns (r: Result<Option<JwtData>, Thrown>)
    modifies storage
    ensures Effect(storage.entries, r) == LoginEffect(old(storage.entries), Credentials(username, password), server, faults)
  {
    var config := new RequestConfig();
    var rejected := InterceptRequest(storage, config, faults);
    if rejected.Some? {
      // Rejected before sending: the response interceptor finds no response and passes the error on.
      r := Failure(rejected.value);
      return;
    }
    var reply := server(Credentials(username, password));
    match reply {
      case Failure(e) =>
        var thrown := InterceptResponseError(storage, e, faults);
        r := Failure(thrown);
      case Success(data) =>
        if data.None? {
          r := Failure(TypeError);
          return;
        }
        if Truthy(data.value.token) {
          var failed := storage.SetItem(TokenKey, data.value.token.value, faults);
          if failed.Some? {
            r := Failure(failed.value);
            return;
          }
        }
        r := Success(data);
    }
  }

  /** A login that returns stores the token it received when that token is truthy, and nothing else;
      the response is handed back as the server sent it. A failed login changes storage only by the
      401 rule of the response interceptor. */
  lemma LoginStoresReceivedToken(entries: map<string, string>, creds: Credentials, server: SigninEndpoint, faults: Faults)
    ensures var eff := LoginEffect(entries, creds, server, faults);
      && (eff.outcome.Success? ==>
            && server(creds) == Success(eff.outcome.value)
            && eff.outcome.value.Some?
            && eff.entries == (if Truthy(eff.outcome.value.value.token)
                               then entries[TokenKey := eff.outcome.value.value.token.value] else entries))
      && (eff.outcome.Failure? ==>
            eff.entries == entries ||
            (server(creds).Failure? && server(creds).error.ErrorResponse? && server(creds).error.status == 401
             && eff.entries == entries - {TokenKey}))
  {
  }

  /** The body `authApi.register` posts. */
  function RegisterBody(username: string, email: string, password: string): SignupBody
  {
    SignupBody(username, email, password, ["user"])
  }

  function RegisterEffect(entries: map<string, string>, body: SignupBody, server: SignupEndpoint, faults: Faults)
    : Effect<()>
  {
    if faults.readFails then Effect(entries, Failure(StorageError))
    else match server(body)
      case Failure(e) =>
        var r := OnResponseError(entries, e, faults);
        Effect(r.entries, Failure(r.thrown))
      case Success(_) => Effect(entries, Success(()))
  }

  method Register(storage: TokenStore, username: string, email: string, password: string,
                  server: SignupEndpoint, faults: Faults)
    returns (r: Result<(), Thrown>)
    modifies storage
    ensures Effect(storage.entries, r) == RegisterEffect(old(storage.entries), RegisterBody(username, email, password), server, faults)
  {
    var config := new RequestConfig();
    var rejected := InterceptRequest(storage, config, faults);
    if rejected.Some? {
      r := Failure(rejected.value);
      return;
    }
    var reply := server(RegisterBody(username, email, password));
    if reply.Failure? {
      var thrown := InterceptResponseError(storage, reply.error, faults);
      r := Failure(thrown);
    } else {
      r := Success(());
    }
  }

  /** Registration never stores a token: the stored token afterwards is the one before, or none
      when the server answered 401. */
  lemma RegisterNeverStoresToken(entries: map<string, string>, body: SignupBody, server: SignupEndpoint, faults: Faults)
    ensures var after := StoredToken(RegisterEffect(entries, body, server, faults).entries);
      after == StoredToken(entries) || after == None
  {
  }

  /** Any other request through the client (the `userApi` calls, for one): the request interceptor
      reads the token first, and a failed reply goes through the response interceptor. `reply` is
      what the server answers. */
  function CallEffect<T>(entries: map<string, string>, reply: Result<T, HttpError>, faults: Faults): (eff: Effect<T>)
    ensures eff.outcome.Success? <==> !faults.readFails && reply.Success?
    ensures eff.outcome.Success? ==> eff.outcome.value == reply.value
    ensures eff.entries != entries ==>
              && reply.Failure? && reply.error.ErrorResponse? && reply.error.status == 401
              && eff.entries == entries - {TokenKey}
    ensures !faults.readFails && !faults.writeFails && reply.Failure? ==> eff.outcome == Failure(AxiosError(reply.error))
  {
    if faults.readFails then Effect(entries, Failure(StorageError))
    else match reply
      case Success(v) => Effect(entries, Success(v))
      case Failure(e) =>
        var r := OnResponseError(entries, e, faults);
        Effect(r.entries, Failure(r.thrown))
  }

  /** One request through the client's interceptors. */
  method Call<T>(storage: TokenStore, reply: Result<T, HttpError>, faults: Faults) returns (r: Result<T, Thrown>)
    modifies storage
    ensures Effect(storage.entries, r) == CallEffect(old(storage.entries), reply, faults)
  {
    var config := new RequestConfig();
    var rejected := InterceptRequest(storage, config, faults);
    if rejected.Some? {
      r := Failure(rejected.value);
      return;
    }
    match reply {
      case Success(v) =>
        r := Success(v);
      case Failure(e) =>
        var thrown := InterceptResponseError(storage, e, faults);
        r := Failure(thrown);
    }
  }

  function LogoutEffect(entries: map<string, string>, faults: Faults): Effect<()>
  {
    if faults.writeFails then Effect(entries, Failure(StorageError)) else Effect(entries - {TokenKey}, Success(()))
  }

  /** `authApi.logout`: remove the token; a storage failure is rethrown. */
  method Logout(storage: TokenStore, faults: Faults) returns (r: Result<(), Thrown>)
    modifies storage
    ensures Effect(storage.entries, r) == LogoutEffect(old(storage.entries), faults)
  {
    var failed := storage.RemoveItem(TokenKey, faults);
    if failed.Some? {
      r := Failure(failed.value);
    } else {
      r := Success(());
    }
  }
}
