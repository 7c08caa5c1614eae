# spring-jwt-auth: the bearer filter and the expiry conversion

This project models the two pieces of logic of their own that the
spring-jwt-auth library carries around its JWT, JSON and Spring Security
dependencies.

- **`JWTAuthenticationFilter.doFilterInternal`** (module `Filter`). The filter
  reads the request's `Authorization` header. It accepts the header only
  when it begins with the exact, case-sensitive text `"Bearer "`. It strips
  those seven characters and hands the rest to the token decoder
  (`JwtHelper.deserializeJwtToken`). The decoder is an oracle here: a
  function `decode` from token strings to `Ok(token)` or `Err(kind)`, held by
  a `JwtHelper` object that records every string it is given. On success the
  filter writes an authentication record into the security context. The
  record holds the decoded token as principal, null credentials and one
  `"ROLE_" + role` authority per role, in order. The filter then calls the
  rest of the filter chain once. Without a usable header it calls the chain
  and does nothing else. When the decoder throws, the exception propagates:
  no context write and no chain call. The security context and the chain
  are objects whose fields the filter changes. The chain records each call
  together with the authentication it could see at that moment, so "the
  chain ran after the write" is stated as "the chain saw the new record".
  `DoFilterInternal` is proved against the pure function `Expected`, and
  the behaviours above are lemmas about `Expected`.
- **`JWTConfig`** (module `Config`). The class has three nullable fields,
  `secret`, `expiryUnit` and `expiry`, with Lombok's `@Data` getters and
  setters. `getExpiryInSeconds()` is `Duration.of(expiry, expiryUnit).getSeconds()`.
  It is modelled as `DurationSeconds` over `ChronoUnit`, a datatype of the
  sixteen units. SECONDS to DAYS multiply exactly. NANOS, MICROS and MILLIS
  take the floor of the nanosecond total divided by 10^9. WEEKS and longer
  units fail, and so does a null amount or unit. The contract ties every
  accepted unit to one reference definition: the result is the floor
  quotient of `expiry × (unit length in nanoseconds)` by 10^9. It also
  states that the result fits in a Java `long` for every 32-bit `expiry`.

Java's null is `Option.None` and a thrown exception is `Result.Err`
(module `Wrappers`).

## Model

| member | source | states |
|---|---|---|
| `Filter.BearerToken` | src/main/java/io/github/ilyasdotdev/spring/auth/jwt/JWTAuthenticationFilter.java:36-46 | a token comes out exactly when the header is present and starts with "Bearer "; the header is then "Bearer " followed by that token |
| `Filter.Grants` | src/main/java/io/github/ilyasdotdev/spring/auth/jwt/JWTAuthenticationFilter.java:61 | one authority per role, same length and order, the i-th being "ROLE_" + the i-th role |
| `Filter.GrantsRoundTrip` | src/main/java/io/github/ilyasdotdev/spring/auth/jwt/JWTAuthenticationFilter.java:61 | stripping "ROLE_" from the grants gives back the role list, duplicates kept |
| `Filter.GrantsInjective` | src/main/java/io/github/ilyasdotdev/spring/auth/jwt/JWTAuthenticationFilter.java:61 | different role lists give different grant lists |
| `Filter.AuthenticationFor` | src/main/java/io/github/ilyasdotdev/spring/auth/jwt/JWTAuthenticationFilter.java:58-62 | builds the record (token as principal, null credentials, `Grants` of its roles, authenticated); what it holds is stated by `SuccessInstallsAuthentication` and `Expected` |
| `Filter.Expected` | src/main/java/io/github/ilyasdotdev/spring/auth/jwt/JWTAuthenticationFilter.java:40-67 | at most one decode and one chain call; a decode happens iff the header has the bearer prefix, and it gets the header minus "Bearer "; the context changes only after a successful decode, and then to that token's record; the chain is skipped iff the decoder threw; the chain gets the same request and response and sees the final context |
| `Filter.JwtHelper.DeserializeJwtToken` | src/main/java/io/github/ilyasdotdev/spring/auth/jwt/JwtHelper.java:47-50 | returns the oracle's result for the given string and records that string |
| `Filter.SecurityContext.SetAuthentication` | src/main/java/io/github/ilyasdotdev/spring/auth/jwt/JWTAuthenticationFilter.java:64 | the context then holds the given record |
| `Filter.FilterChain.DoFilter` | src/main/java/io/github/ilyasdotdev/spring/auth/jwt/JWTAuthenticationFilter.java:51 | records one call with the request, the response and the authentication in the context |
| `Filter.JWTAuthenticationFilter.DoFilterInternal` | src/main/java/io/github/ilyasdotdev/spring/auth/jwt/JWTAuthenticationFilter.java:38-67 | the decoder log, the context, the chain log and the outcome change exactly as `Expected` says, and nothing else changes |
| `Filter.JWTAuthenticationFilter.constructor` | src/main/java/io/github/ilyasdotdev/spring/auth/jwt/JWTAuthenticationFilter.java:31-34 | keeps the given helper; the token class argument is folded into the helper's oracle, as "## Left out" says |
| `Filter.AbsentHeaderPassesThrough` | src/main/java/io/github/ilyasdotdev/spring/auth/jwt/JWTAuthenticationFilter.java:43-53 | with no header: no decode, context unchanged, one chain call, normal return |
| `Filter.NonBearerPassesThrough` | src/main/java/io/github/ilyasdotdev/spring/auth/jwt/JWTAuthenticationFilter.java:44-52 | a header not starting with "Bearer " behaves exactly like a missing one |
| `Filter.BearerPrefixExamples` | src/main/java/io/github/ilyasdotdev/spring/auth/jwt/JWTAuthenticationFilter.java:36 | "bearer x", "Bearer" and "Basic x" are refused; "Bearer  x" hands on " x" |
| `Filter.BearerRoundTrip` | src/main/java/io/github/ilyasdotdev/spring/auth/jwt/JWTAuthenticationFilter.java:44-45 | for every t, header "Bearer " + t yields exactly t |
| `Filter.EmptyBearerIsDecoded` | src/main/java/io/github/ilyasdotdev/spring/auth/jwt/JWTAuthenticationFilter.java:45-56 | a header of exactly "Bearer " sends the empty string to the decoder instead of passing through |
| `Filter.SuccessInstallsAuthentication` | src/main/java/io/github/ilyasdotdev/spring/auth/jwt/JWTAuthenticationFilter.java:56-66 | on a successful decode the context holds (token, null credentials, role grants, authenticated) and the chain is called once, seeing that record |
| `Filter.FailurePropagates` | src/main/java/io/github/ilyasdotdev/spring/auth/jwt/JWTAuthenticationFilter.java:39-56 | on a decoder failure the same error is thrown, the context is kept and the chain is not called |
| `Filter.ValidTokenScenario` | src/test/java/io/github/ilyasdotdev/spring/auth/jwt/JWTAuthenticationFilterTest.java:59-79 | a valid token with role "USER" is installed as principal with the single authority "ROLE_USER", and the chain gets the same request and response once |
| `Config.DurationSeconds` | src/main/java/io/github/ilyasdotdev/spring/auth/jwt/JWTConfig.java:34-36 | succeeds iff amount and unit are non-null and the unit is DAYS or shorter; null gives NullPointer, longer units UnsupportedTemporalType; the value is the floor of amount × unit-nanoseconds / 10^9 and fits in a 64-bit long |
| `Config.FloorQuotientUnique` | src/main/java/io/github/ilyasdotdev/spring/auth/jwt/JWTConfig.java:35 | the floor quotient is unique, so the contract of `DurationSeconds` fixes its value |
| `Config.ExactUnitsMultiply` | src/main/java/io/github/ilyasdotdev/spring/auth/jwt/JWTConfig.java:34-36 | SECONDS, MINUTES, HOURS, HALF_DAYS and DAYS give expiry × 1, 60, 3600, 43200 and 86400 |
| `Config.SubSecondUnitsFloor` | src/main/java/io/github/ilyasdotdev/spring/auth/jwt/JWTConfig.java:35 | NANOS, MICROS and MILLIS give the floor of expiry / 10^9, 10^6 and 10^3; 999 ms is 0 s and -1 ms is -1 s |
| `Config.EstimatedUnitsFail` | src/main/java/io/github/ilyasdotdev/spring/auth/jwt/JWTConfig.java:35 | WEEKS through FOREVER fail with UnsupportedTemporalType for every amount, zero included |
| `Config.NullFails` | src/main/java/io/github/ilyasdotdev/spring/auth/jwt/JWTConfig.java:19-20 | a null expiry or a null unit fails with NullPointer |
| `Config.NoValidation` | src/main/java/io/github/ilyasdotdev/spring/auth/jwt/JWTConfig.java:20-35 | zero converts to zero and a negative expiry to a negative number of seconds |
| `Config.MonotoneInAmount` | src/main/java/io/github/ilyasdotdev/spring/auth/jwt/JWTConfig.java:35 | for a fixed accepted unit, a larger expiry never gives fewer seconds |
| `Config.ExpiryInSecondsIgnoresSecret` | src/main/java/io/github/ilyasdotdev/spring/auth/jwt/JWTConfig.java:34-36 | the result depends only on expiry and expiryUnit |
| `Config.JWTConfig.GetExpiryInSeconds` | src/main/java/io/github/ilyasdotdev/spring/auth/jwt/JWTConfig.java:34-36 | `getExpiryInSeconds()`: the conversion of the two lifetime fields; its properties are stated by `DurationSeconds` and `ExpiryInSecondsIgnoresSecret` |
| `Config.JWTConfig.GetSecret` | src/main/java/io/github/ilyasdotdev/spring/auth/jwt/JWTConfig.java:15-18 | the `@Data` getter of `secret`; `SetSecret` states that it returns the value last set |
| `Config.JWTConfig.GetExpiryUnit` | src/main/java/io/github/ilyasdotdev/spring/auth/jwt/JWTConfig.java:15-19 | the `@Data` getter of `expiryUnit`; `SetExpiryUnit` states that it returns the value last set |
| `Config.JWTConfig.GetExpiry` | src/main/java/io/github/ilyasdotdev/spring/auth/jwt/JWTConfig.java:15-20 | the `@Data` getter of `expiry`; `SetExpiry` states that it returns the value last set |
| `Config.JWTConfig.constructor` | src/main/java/io/github/ilyasdotdev/spring/auth/jwt/JWTConfig.java:25-27 | every field starts null, so the conversion fails with NullPointer |
| `Config.JWTConfig.SetSecret` | src/main/java/io/github/ilyasdotdev/spring/auth/jwt/JWTConfig.java:15-18 | the getter then returns the new secret; the other fields and the seconds are unchanged |
| `Config.JWTConfig.SetExpiryUnit` | src/main/java/io/github/ilyasdotdev/spring/auth/jwt/JWTConfig.java:15-19 | the getter then returns the new unit; the other fields are unchanged |
| `Config.JWTConfig.SetExpiry` | src/main/java/io/github/ilyasdotdev/spring/auth/jwt/JWTConfig.java:15-20 | the getter then returns the new amount; the other fields are unchanged |

## Left out

- The token codec inside `JwtHelper`: HS512 signing, compact serialization, base64url, the `exp` check, the clock and the Jackson claim mapping happen in libraries. Decoding is the oracle `decode`; `serializeJwtToken` is not part of this model.
- The target token class passed to the filter's constructor is fixed inside `decode`; `Token` carries the application's other fields as an opaque claims map.
- `Token.getRoles()` returning null, or a null role (which Java turns into "ROLE_null"), is not modelled: roles are a sequence of strings.
- `OncePerRequestFilter`'s once-per-request guard, the thread-local storage behind `SecurityContextHolder` and SLF4J logging are not modelled; the current request's context is passed to the filter as an object.
- Header lookup: `Header` matches the name "Authorization" exactly and returns one value; the servlet container's case-insensitive, multi-valued lookup is not modelled.
- `UsernamePasswordAuthenticationToken` and `SimpleGrantedAuthority` are plain records; their details, erase-credentials and equality, are not modelled.
- Lombok's generated `equals`, `hashCode` and `toString`, and the Spring property binding that calls the setters, are not modelled.
- The configuration has setters and accepts zero and negative amounts; nothing validates them.
- Roles are an ordered list; the grants keep their order and duplicates.
- There is no empty-secret check and no error taxonomy of the library's own; the exceptions of the libraries escape unchanged.
- The oracle `decode` stands for decoding under the secret in force at the time of the call; the Java helper reads `jwtConfig.getSecret()` on every call, so a secret changed between two requests changes decoding, which a `const` oracle fixed at construction does not show.
- `Config.DurationSeconds` models the seconds only; the nanosecond part of the `Duration` is dropped by `getSeconds()` and is not modelled.
