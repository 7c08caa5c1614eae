/**
 * The per-request authentication filter (JWTAuthenticationFilter): it reads
 * the `Authorization` header, accepts it only when it begins with the exact,
 * case-sensitive text "Bearer ", hands the rest to the token decoder and, on
 * success, installs an authentication record built from the decoded token
 * and its roles into the security context before passing the request on.
 */
module Filter {
  import opened Wrappers

  const AuthorizationHeader: string := "Authorization"
  const BearerPrefix: string := "Bearer "
  const RolePrefix: string := "ROLE_"

  /**
   * A decoded token (the `Token` interface): the application's own claims,
   * and the roles `getRoles()` yields, in iteration order.
   */
  datatype Token = Token(claims: map<string, string>, roles: seq<string>)

  /**
   * The exception kinds the decoder documents; the library can throw others
   * as well, and the filter treats every kind alike, passing it on unchanged.
   */
  datatype DecodeError = Expired | Unsupported | Malformed | InvalidSignature | IllegalArgument

  /** `SimpleGrantedAuthority`. */
  datatype GrantedAuthority = GrantedAuthority(authority: string)

  /**
   * `UsernamePasswordAuthenticationToken` built with three arguments: the
   * principal, the credentials (`None` is null), the authorities, and the
   * authenticated flag that constructor sets.
   */
  datatype Authentication = Authentication(
    principal: Token,
    credentials: Option<string>,
    authorities: seq<GrantedAuthority>,
    authenticated: bool)

  /**
   * A servlet request and response. Only the headers are read; the path and
   * the status stand for each object's identity, so that "the chain gets the
   * same request and response" distinguishes one request from another.
   */
  datatype Request = Request(headers: map<string, string>, path: string)
  datatype Response = Response(status: int)

  /** `request.getHeader(name)`: the header's value, or null when it is absent. */
  function Header(request: Request, name: string): Option<string> {
    if name in request.headers then Some(request.headers[name]) else None
  }

  /** One call of the rest of the chain, with the authentication it could see in the context. */
  datatype ChainCall = ChainCall(request: Request, response: Response, authentication: Option<Authentication>)

  /** How `doFilterInternal` ends: it returns, or it throws what the decoder threw. */
  datatype Outcome = Completed | Thrown(error: DecodeError)

  /** `String.startsWith`: exact, case-sensitive comparison of the leading characters. */
  predicate StartsWith(s: string, prefix: string) {
    prefix <= s
  }

  /**
   * The header pipeline: keep the value only when it starts with "Bearer ",
   * and strip those seven characters; anything else reads as null.
   */
  function BearerToken(header: Option<string>): (r: Option<string>)
    ensures r.Some? <==> header.Some? && StartsWith(header.value, BearerPrefix)
    ensures r.Some? ==> header.value == BearerPrefix + r.value
  {
    if header.Some? && StartsWith(header.value, BearerPrefix) then Some(header.value[|BearerPrefix|..]) else None
  }

  /** One "ROLE_"-prefixed authority per role, in the order of the roles, duplicates kept. */
  function Grants(roles: seq<string>): (g: seq<GrantedAuthority>)
    ensures |g| == |roles|
    ensures forall i :: 0 <= i < |roles| ==> g[i] == GrantedAuthority(RolePrefix + roles[i])
  {
    if roles == [] then [] else [GrantedAuthority(RolePrefix + roles[0])] + Grants(roles[1..])
  }

  /** The record the filter installs for a decoded token. */
  function AuthenticationFor(token: Token): Authentication {
    Authentication(token, None, Grants(token.roles), true)
  }

  /** The strings handed to the decoder, the context afterwards, the chain calls made and the outcome. */
  datatype Effect = Effect(
    decoded: seq<string>,
    context: Option<Authentication>,
    chained: seq<ChainCall>,
    outcome: Outcome)

  /**
   * What one run of the filter does, given the decoder as a function from
   * token strings to its result, and the authentication in the context
   * before the run.
   */
  function Expected(
    request: Request, response: Response,
    decode: string -> Result<Token, DecodeError>, before: Option<Authentication>): (e: Effect)
    ensures |e.decoded| <= 1 && |e.chained| <= 1
    ensures e.decoded == [] <==> BearerToken(Header(request, AuthorizationHeader)).None?
    ensures forall t :: t in e.decoded ==> Header(request, AuthorizationHeader) == Some(BearerPrefix + t)
    ensures e.decoded == [] ==> e.context == before && e.outcome.Completed?
    ensures e.chained == [] <==> e.outcome.Thrown?
    ensures e.outcome.Thrown? ==> e.context == before && e.decoded != [] && decode(e.decoded[0]) == Err(e.outcome.error)
    ensures e.decoded != [] && e.outcome.Completed? ==>
      decode(e.decoded[0]).Ok? && e.context == Some(AuthenticationFor(decode(e.decoded[0]).value))
    ensures forall c :: c in e.chained ==> c == ChainCall(request, response, e.context)
  {
    match BearerToken(Header(request, AuthorizationHeader))
    case None => Effect([], before, [ChainCall(request, response, before)], Completed)
    case Some(t) =>
      match decode(t)
      case Err(err) => Effect([t], before, [], Thrown(err))
      case Ok(token) =>
        var installed := Some(AuthenticationFor(token));
        Effect([t], installed, [ChainCall(request, response, installed)], Completed)
  }

  /**
   * `JwtHelper.deserializeJwtToken(token, type)` for the filter's fixed
   * target type: verification and claim mapping are the function `decode`;
   * `requests` records every string it was given.
   */
  class JwtHelper {
    const decode: string -> Result<Token, DecodeError>
    var requests: seq<string>

    constructor (decode: string -> Result<Token, DecodeError>)
      ensures this.decode == decode && requests == []
    {
      this.decode := decode;
      requests := [];
    }

    method DeserializeJwtToken(token: string) returns (r: Result<Token, DecodeError>)
      modifies this`requests
      ensures requests == old(requests) + [token]
      ensures r == decode(token)
    {
      requests := requests + [token];
      r := decode(token);
    }
  }

  /** The security context of the current request. */
  class SecurityContext {
    var authentication: Option<Authentication>

    constructor ()
      ensures authentication.None?
    {
      authentication := None;
    }

    method SetAuthentication(a: Option<Authentication>)
      modifies this
      ensures authentication == a
    {
      authentication := a;
    }
  }

  /** The rest of the filter chain, which records each call it receives. */
  class FilterChain {
    var calls: seq<ChainCall>

    constructor ()
      ensures calls == []
    {
      calls := [];
    }

    method DoFilter(request: Request, response: Response, context: SecurityContext)
      modifies this
      ensures calls == old(calls) + [ChainCall(request, response, context.authentication)]
    {
      calls := calls + [ChainCall(request, response, context.authentication)];
    }
  }

  class JWTAuthenticationFilter {
    const jwtHelper: JwtHelper

    constructor (jwtHelper: JwtHelper)
      ensures this.jwtHelper == jwtHelper
    {
      this.jwtHelper := jwtHelper;
    }

    /**
     * `doFilterInternal`: the decoder, the context and the chain change
     * exactly as Expected says, and nothing else changes.
     */
    method DoFilterInternal(request: Request, response: Response, filterChain: FilterChain, context: SecurityContext)
      returns (outcome: Outcome)
      modifies jwtHelper`requests, context, filterChain
      ensures var e := Expected(request, response, jwtHelper.decode, old(context.authentication));
        && jwtHelper.requests == old(jwtHelper.requests) + e.decoded
        && context.authentication == e.context
        && filterChain.calls == old(filterChain.calls) + e.chained
        && outcome == e.outcome
    {
      var bearerToken := BearerToken(Header(request, AuthorizationHeader));
      if bearerToken.None? {
        filterChain.DoFilter(request, response, context);
        return Completed;
      }
      var parsed := jwtHelper.DeserializeJwtToken(bearerToken.value);
      if parsed.Err? {
        return Thrown(parsed.error);
      }
      context.SetAuthentication(Some(AuthenticationFor(parsed.value)));
      filterChain.DoFilter(request, response, context);
      outcome := Completed;
    }
  }

  /** Without an Authorization header the chain runs once, with the context untouched, and nothing is decoded. */
  lemma AbsentHeaderPassesThrough(
    request: Request, response: Response,
    decode: string -> Result<Token, DecodeError>, before: Option<Authentication>)
    requires AuthorizationHeader !in request.headers
    ensures Expected(request, response, decode, before) == Effect([], before, [ChainCall(request, response, before)], Completed)
  {
  }

  /** A header that does not start with "Bearer " is treated exactly like a missing one. */
  lemma NonBearerPassesThrough(
    request: Request, response: Response,
    decode: string -> Result<Token, DecodeError>, before: Option<Authentication>)
    requires AuthorizationHeader in request.headers
    requires !StartsWith(request.headers[AuthorizationHeader], BearerPrefix)
    ensures Expected(request, response, decode, before) == Effect([], before, [ChainCall(request, response, before)], Completed)
  {
  }

  /**
   * The prefix match is case-sensitive and needs the space; a second space
   * stays in the token handed on.
   */
  lemma BearerPrefixExamples()
    ensures BearerToken(Some("bearer x")) == None
    ensures BearerToken(Some("Bearer")) == None
    ensures BearerToken(Some("Basic x")) == None
    ensures BearerToken(Some("Bearer  x")) == Some(" x")
  {
    assert "bearer x"[0] != BearerPrefix[0];
    assert "Basic x"[1] != BearerPrefix[1];
    assert "Bearer  x" == BearerPrefix + " x";
  }

  /** "Bearer " followed by any string hands exactly that string to the decoder. */
  lemma BearerRoundTrip(t: string)
    ensures BearerToken(Some(BearerPrefix + t)) == Some(t)
  {
  }

  /** A header of exactly "Bearer " yields the empty token, which is decoded rather than treated as absent. */
  lemma EmptyBearerIsDecoded(
    request: Request, response: Response,
    decode: string -> Result<Token, DecodeError>, before: Option<Authentication>)
    requires Header(request, AuthorizationHeader) == Some(BearerPrefix)
    ensures Expected(request, response, decode, before).decoded == [""]
  {
  }

  /**
   * A token that decodes is installed with null credentials and its role
   * authorities, and the chain then runs once and sees it.
   */
  lemma SuccessInstallsAuthentication(
    request: Request, response: Response,
    decode: string -> Result<Token, DecodeError>, before: Option<Authentication>,
    t: string, token: Token)
    requires Header(request, AuthorizationHeader) == Some(BearerPrefix + t)
    requires decode(t) == Ok(token)
    ensures var installed := Some(Authentication(token, None, Grants(token.roles), true));
      Expected(request, response, decode, before) == Effect([t], installed, [ChainCall(request, response, installed)], Completed)
  {
  }

  /** A decoder failure propagates: the context keeps its value and the chain is not called. */
  lemma FailurePropagates(
    request: Request, response: Response,
    decode: string -> Result<Token, DecodeError>, before: Option<Authentication>,
    t: string, err: DecodeError)
    requires Header(request, AuthorizationHeader) == Some(BearerPrefix + t)
    requires decode(t) == Err(err)
    ensures Expected(request, response, decode, before) == Effect([t], before, [], Thrown(err))
  {
  }

  /** The role an authority names, when it carries the "ROLE_" prefix. */
  function RoleOf(g: GrantedAuthority): Option<string> {
    if StartsWith(g.authority, RolePrefix) then Some(g.authority[|RolePrefix|..]) else None
  }

  /** The roles behind a sequence of authorities, skipping authorities that are not roles. */
  function RolesOf(grants: seq<GrantedAuthority>): seq<string> {
    if grants == [] then []
    else match RoleOf(grants[0])
      case Some(role) => [role] + RolesOf(grants[1..])
      case None => RolesOf(grants[1..])
  }

  /** Stripping "ROLE_" from the grants gives back the roles, in order, duplicates included. */
  lemma {:induction false} GrantsRoundTrip(roles: seq<string>)
    ensures RolesOf(Grants(roles)) == roles
  {
    if roles != [] {
      var g := Grants(roles);
      assert (RolePrefix + roles[0])[|RolePrefix|..] == roles[0];
      assert g[1..] == Grants(roles[1..]);
      GrantsRoundTrip(roles[1..]);
    }
  }

  /** Different role lists never yield the same grants. */
  lemma GrantsInjective(r1: seq<string>, r2: seq<string>)
    requires Grants(r1) == Grants(r2)
    ensures r1 == r2
  {
    GrantsRoundTrip(r1);
    GrantsRoundTrip(r2);
  }

  /**
   * The filter's test: a valid token whose only role is "USER" is installed
   * as the principal with the single authority "ROLE_USER", and the chain is
   * called once with the same request and response.
   */
  lemma ValidTokenScenario(
    request: Request, response: Response,
    decode: string -> Result<Token, DecodeError>, before: Option<Authentication>,
    jwt: string, claims: map<string, string>)
    requires request.headers == map[AuthorizationHeader := BearerPrefix + jwt]
    requires decode(jwt) == Ok(Token(claims, ["USER"]))
    ensures var e := Expected(request, response, decode, before);
      && e.context.Some?
      && e.context.value.principal == Token(claims, ["USER"])
      && e.context.value.authorities == [GrantedAuthority("ROLE_USER")]
      && e.chained == [ChainCall(request, response, e.context)]
  {
    SuccessInstallsAuthentication(request, response, decode, before, jwt, Token(claims, ["USER"]));
    assert RolePrefix + "USER" == "ROLE_USER";
  }
}
