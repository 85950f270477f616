/**
 * The backend's security configuration: which request paths need an authenticated user, the
 * stateless JWT filter chain in front of the controllers, and the two CORS configurations
 * (the `CorsFilter` bean and the one the security chain uses).
 */
module WebSecurity {
  import opened Wrappers
  import opened Web

  datatype Access = PermitAll | Authenticated

  /** A `requestMatchers` pattern (the base path followed by a double-star segment) with its access rule. */
  datatype Rule = Rule(base: string, access: Access)

  /** The matchers, in the order they are declared; any other request needs authentication. */
  const Rules := [Rule("/api/auth", PermitAll), Rule("/api/test", PermitAll),
                  Rule("/api/plagiarism", PermitAll), Rule("/api/files", PermitAll)]

  /** A double-star pattern below `base` matches the base path itself and everything below it. */
  predicate UnderBase(base: string, path: string)
  {
    path == base || base + "/" <= path
  }

  /** The first matching rule decides; `anyRequest().authenticated()` catches the rest. */
  function Decide(rules: seq<Rule>, path: string): (a: Access)
    ensures a == PermitAll ==> exists i | 0 <= i < |rules| :: rules[i].access == PermitAll
    ensures (forall i | 0 <= i < |rules| :: !UnderBase(rules[i].base, path)) ==> a == Authenticated
    ensures forall k | 0 <= k < |rules| && UnderBase(rules[k].base, path) ::
              (forall j | 0 <= j < k :: !UnderBase(rules[j].base, path)) ==> a == rules[k].access
  {
    if rules == [] then Authenticated
    else if UnderBase(rules[0].base, path) then rules[0].access
    else Decide(rules[1..], path)
  }

  /** With permit-all rules only, a path is let through exactly when some rule's pattern matches it. */
  lemma {:induction false} DecidePermitOnly(rules: seq<Rule>, path: string)
    requires forall i | 0 <= i < |rules| :: rules[i].access == PermitAll
    ensures Decide(rules, path) == PermitAll <==> exists i | 0 <= i < |rules| :: UnderBase(rules[i].base, path)
  {
    if rules != [] && !UnderBase(rules[0].base, path) {
      DecidePermitOnly(rules[1..], path);
      if Decide(rules, path) == PermitAll {
        var i :| 0 <= i < |rules[1..]| && UnderBase(rules[1..][i].base, path);
        assert UnderBase(rules[i + 1].base, path);
      }
      if exists i | 0 <= i < |rules| :: UnderBase(rules[i].base, path) {
        var i :| 0 <= i < |rules| && UnderBase(rules[i].base, path);
        assert i != 0;
        assert UnderBase(rules[1..][i - 1].base, path);
      }
    }
  }

  /** The access a request path needs. */
  function RequiredAccess(path: string): (a: Access)
    ensures a == PermitAll <==> exists i | 0 <= i < |Rules| :: UnderBase(Rules[i].base, path)
  {
    DecidePermitOnly(Rules, path);
    Decide(Rules, path)
  }

  /** Every path below `/api/users` needs an authenticated user. */
  lemma UsersApiIsProtected(path: string)
    requires "/api/users" <= path
    ensures RequiredAccess(path) == Authenticated
  {
    assert path[5] == 'u';
    forall i | 0 <= i < |Rules|
      ensures !UnderBase(Rules[i].base, path)
    {
      var base := Rules[i].base;
      assert |base| > 5 && base[5] != 'u';
      assert path[5] != base[5] && path[5] != (base + "/")[5];
    }
  }

  /** What the chain does with a request before it reaches a controller. */
  datatype ChainOutcome =
    | Dispatch(authentication: Option<Authentication>)   // the controller runs with this context
    | Unauthorized                                        // the entry point answers 401

  /** The stateless filter chain: the security context of a request comes only from its bearer
      token (no session carries one over), then the path rule decides. `validate` is the JWT
      filter's token check. */
  function FilterChain(path: string, bearer: Option<string>, validate: string -> Option<Authentication>): (r: ChainOutcome)
    ensures RequiredAccess(path) == PermitAll ==> r.Dispatch?
    ensures RequiredAccess(path) == Authenticated ==>
      (r.Dispatch? <==> bearer.Some? && validate(bearer.value).Some?)
    ensures r.Dispatch? ==> r.authentication == (if bearer.Some? then validate(bearer.value) else None)
  {
    var authentication := if bearer.Some? then validate(bearer.value) else None;
    if RequiredAccess(path) == Authenticated && authentication.None? then Unauthorized
    else Dispatch(authentication)
  }

  const CsrfEnabled := false
  datatype SessionCreationPolicy = Always | IfRequired | Never | Stateless
  const SessionPolicy := Stateless

  /** The fields of a `CorsConfiguration` the backend sets. */
  datatype CorsConfiguration = CorsConfiguration(
    allowCredentials: bool,
    allowedOrigins: seq<string>,
    allowedHeaders: seq<string>,
    exposedHeaders: seq<string>,
    allowedMethods: seq<string>,
    maxAge: int)

  const AllowedOrigins := [
    "http://localhost:8081", "http://localhost:19000", "http://localhost:19006",
    "http://localhost:8082",
    "http://10.0.2.2:8081", "http://10.0.2.2:19000", "http://10.0.2.2:19006",
    "http://192.168.1.4:8081", "http://192.168.1.4:19000", "http://192.168.1.4:19006",
    "exp://192.168.1.4:19000", "exp://localhost:19000"]

  const AllowedMethods := ["GET", "POST", "PUT", "DELETE", "OPTIONS", "PATCH"]

  /** The `CorsFilter` bean, registered for every path. */
  const FilterCors := CorsConfiguration(
    true, AllowedOrigins,
    ["Origin", "Content-Type", "Accept", "Authorization", "X-Requested-With",
     "Access-Control-Request-Method", "Access-Control-Request-Headers"],
    ["Origin", "Content-Type", "Accept", "Authorization",
     "Access-Control-Allow-Origin", "Access-Control-Allow-Credentials"],
    AllowedMethods, 3600)

  /** The configuration the security chain's `cors` customiser returns. */
  const ChainCors := CorsConfiguration(true, AllowedOrigins, ["*"], ["Authorization"], AllowedMethods, 3600)

  /** The origin a CORS check echoes back, if the origin is listed. */
  function CheckOrigin(config: CorsConfiguration, origin: string): (r: Option<string>)
    ensures r.Some? <==> origin in config.allowedOrigins
    ensures r.Some? ==> r.value == origin
  {
    if origin in config.allowedOrigins then Some(origin) else None
  }

  predicate MethodAllowed(config: CorsConfiguration, verb: string)
  {
    verb in config.allowedMethods
  }

  /** The requested headers a preflight may use: all of them under "*", else the listed ones. */
  function CheckHeaders(config: CorsConfiguration, requested: seq<string>): (r: seq<string>)
    ensures "*" in config.allowedHeaders ==> r == requested
    ensures "*" !in config.allowedHeaders ==>
      forall h :: h in r <==> h in requested && h in config.allowedHeaders
  {
    if "*" in config.allowedHeaders then requested
    else Filter(requested, config.allowedHeaders)
  }

  function Filter(hs: seq<string>, allowed: seq<string>): (r: seq<string>)
    ensures forall h :: h in r <==> h in hs && h in allowed
  {
    if hs == [] then []
    else (if hs[0] in allowed then [hs[0]] else []) + Filter(hs[1..], allowed)
  }

  /** Whether a preflight request from `origin` for `verb` with `requested` headers is accepted. */
  predicate PreflightAccepted(config: CorsConfiguration, origin: string, verb: string, requested: seq<string>)
  {
    CheckOrigin(config, origin).Some? && MethodAllowed(config, verb)
      && |CheckHeaders(config, requested)| == |requested|
  }

  /** The two configurations accept the same origins and methods; the chain's accepts any request
      header, the filter's only its seven names, so a custom header separates them. Both let the
      client's `Authorization` header through. */
  lemma CorsConfigurationsCompared(origin: string, verb: string)
    ensures FilterCors.allowCredentials && ChainCors.allowCredentials
    ensures FilterCors.maxAge == ChainCors.maxAge == 3600
    ensures CheckOrigin(FilterCors, origin) == CheckOrigin(ChainCors, origin)
    ensures MethodAllowed(FilterCors, verb) == MethodAllowed(ChainCors, verb)
    ensures PreflightAccepted(ChainCors, origin, verb, ["X-Custom"]) <==> origin in AllowedOrigins && verb in AllowedMethods
    ensures !PreflightAccepted(FilterCors, origin, verb, ["X-Custom"])
    ensures PreflightAccepted(FilterCors, origin, verb, ["Authorization"]) <==> origin in AllowedOrigins && verb in AllowedMethods
    ensures PreflightAccepted(ChainCors, origin, verb, ["Authorization"]) <==> origin in AllowedOrigins && verb in AllowedMethods
  {
    assert "X-Custom" !in FilterCors.allowedHeaders;
    assert CheckHeaders(FilterCors, ["X-Custom"]) == Filter(["X-Custom"], FilterCors.allowedHeaders)
      == [] + Filter([], FilterCors.allowedHeaders);
    assert "Authorization" in FilterCors.allowedHeaders;
    assert CheckHeaders(FilterCors, ["Authorization"]) == Filter(["Authorization"], FilterCors.allowedHeaders)
      == ["Authorization"] + Filter([], FilterCors.allowedHeaders);
  }
}
