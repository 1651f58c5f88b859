# omniauth-jwt claim policy, modelled in Dafny

This project models the claim-policy core of the OmniAuth JWT strategy, the
class `OmniAuth::Strategies::JWT` in `lib/omniauth/strategies/jwt.rb`.

- **`decoded`** decodes the request's `jwt` parameter and keeps the payload in
  `@decoded`, so a successful decode happens at most once per strategy
  instance; a decode that raises leaves `@decoded` empty and is attempted again
  on the next call. On every call it then re-runs
  the claim checks, in this order, and stops at the first failure:
  1. every name in `required_claims` must be a key of the payload, taken in
     list order (an unset list counts as empty);
  2. when `valid_within` is set, `iat` must be present and truthy;
  3. when `valid_within` is set, `|now - iat|` must not exceed `valid_within`
     (strict `>` fails).

  A failed check raises `ClaimInvalid` with that rule's message; the presence
  message names the missing claim. A non-numeric `iat` makes the subtraction
  raise a Ruby TypeError instead, which is not a `ClaimInvalid`.
- **`uid`**, **`info`** and **`extra`** project the validated payload:
  - `uid` is the configured uid claim (or a user lookup's answer);
  - `info` is the profile hash built from `info_map`;
  - `extra` is `{raw_info: payload}`.

Files:

- `claims.dfy` (module `Claims`) holds the claim values and Ruby truthiness.
  It also holds `Hash#[]` and the `Outcome` of a call: a value, or
  `ClaimInvalid(message)`, `IatTypeError` or `DecodeError`.
- `claim_policy.dfy` (module `ClaimPolicy`) holds the checks of `decoded`:
  - the pure specification `Validate`;
  - the loop over the required claims (`FirstMissingClaim`);
  - the lemmas on ordering, precedence, the window boundary and the messages.
- `identity.dfy` (module `Identity`) holds the `uid`, `info` and `extra`
  projections, with lemmas on the keys and values of the profile hash.
- `strategy.dfy` (module `JwtStrategy`) holds the class `Strategy`.
  - Its fields are the options, the payload the JWT gem yields for this
    instance's token, the `@decoded` cache, and a ghost count of decode calls.
  - Its methods are `Decoded`, `Uid`, `Info` and `Extra`.
  - Each method is proved against `Expected`, the specification of `decoded`.

External inputs become parameters:

- The clock (`Time.now.to_i`) becomes the integer `now`.
- The result of `::JWT.decode` becomes the constant `payload`: the decoded
  claim map, or `None` when the gem raises.
- A uid lookup class becomes a function from the payload to a value.

## Model

| member | source | states |
|---|---|---|
| `ClaimPolicy.FirstMissing` | lib/omniauth/strategies/jwt.rb:30-32 | a reported name is in the required list and is not a key; no report means every required name is a key (a key holding nil counts as present) |
| `ClaimPolicy.FirstMissingAt` | lib/omniauth/strategies/jwt.rb:30-32 | if the name at index i is absent and all before it are present, that name is the one reported |
| `ClaimPolicy.FirstMissingWitness` | lib/omniauth/strategies/jwt.rb:30-32 | a reported name sits at an index where it is absent and every earlier name is present |
| `ClaimPolicy.FirstMissingNoneIff` | lib/omniauth/strategies/jwt.rb:30-32 | nothing is reported iff every required name is a key |
| `ClaimPolicy.FirstMissingClaim` | lib/omniauth/strategies/jwt.rb:30-32 | the in-order loop stops at exactly the first absent required name, or finds none |
| `ClaimPolicy.Skew` | lib/omniauth/strategies/jwt.rb:34 | `(now - iat).abs` is defined exactly for Integer and Float `iat` and is never negative |
| `ClaimPolicy.CheckIat` | lib/omniauth/strategies/jwt.rb:33-34 | with a window, success iff `iat` is truthy, numeric and at most the window from now; success returns the payload; never a decode error |
| `ClaimPolicy.Validate` | lib/omniauth/strategies/jwt.rb:30-35 | on success the payload comes back unchanged and every required name is a key; with a window, `iat` is also present, truthy, numeric and at most the window from now |
| `ClaimPolicy.AllPresentWithoutWindow` | lib/omniauth/strategies/jwt.rb:30-35 | all required names present and no window: the payload is returned unchanged, whatever the time |
| `ClaimPolicy.WithoutWindowOnlyPresence` | lib/omniauth/strategies/jwt.rb:30-35 | without a window: accepted iff every required name is a key; otherwise the message names the first absent one |
| `ClaimPolicy.MissingClaimFirst` | lib/omniauth/strategies/jwt.rb:30-34 | the first absent required name in list order is reported whatever the window, time or `iat` (required claims take precedence over the `iat` checks) |
| `ClaimPolicy.NilRequiredIsEmpty` | lib/omniauth/strategies/jwt.rb:30 | an unset required list behaves as the empty list and never yields a presence error |
| `ClaimPolicy.MissingIatReported` | lib/omniauth/strategies/jwt.rb:33 | with a window and all required names present, an absent, nil or false `iat` gives "Missing required 'iat' claim." even when `iat` is not required |
| `ClaimPolicy.SkewRule` | lib/omniauth/strategies/jwt.rb:34 | with a window and an Integer or Float `iat`: skew message iff `abs(now - iat) > window`, acceptance iff `abs(now - iat) <= window`; for an Integer `iat` the skew is the integer distance |
| `ClaimPolicy.SkewSymmetric` | lib/omniauth/strategies/jwt.rb:34 | an `iat` d seconds in the past is accepted iff one d seconds in the future is |
| `ClaimPolicy.SkewBoundary` | lib/omniauth/strategies/jwt.rb:34 | an `iat` exactly `window` seconds away (past or future) passes; one second further in the past fails with the skew message |
| `ClaimPolicy.NonNumericIat` | lib/omniauth/strategies/jwt.rb:34 | a string, true, array or object `iat` makes the subtraction raise a TypeError |
| `ClaimPolicy.MissingClaimMessageInjective` | lib/omniauth/strategies/jwt.rb:31 | the presence message identifies its claim: equal messages mean equal names |
| `ClaimPolicy.MessagesDistinguishRules` | lib/omniauth/strategies/jwt.rb:31-34 | the skew message differs from every presence message; a missing required `iat` and a missing windowed `iat` share one text |
| `Identity.InfoHash` | lib/omniauth/strategies/jwt.rb:56-61 | the keys of `info` are exactly the output names of `info_map` |
| `Identity.InfoHashLastWins` | lib/omniauth/strategies/jwt.rb:56-61 | each output name holds the source claim's value of the last pair naming it, or nil when that claim is absent (not an error) |
| `Identity.InfoHashDistinct` | lib/omniauth/strategies/jwt.rb:56-61 | with distinct output names, every output name maps to `decoded[source]` |
| `Identity.InfoHashExample` | lib/omniauth/strategies/jwt.rb:56-61 | an info map `name => fullName, email => email` over a payload without `email` gives `{name: "A B", email: nil}` |
| `JwtStrategy.DefaultOptionsAccept` | lib/omniauth/strategies/jwt.rb:16-35 | under the defaults a payload is accepted iff it has the keys "name" and "email" |
| `JwtStrategy.Strategy.constructor` | lib/omniauth/strategies/jwt.rb:26 | a fresh instance has an empty `@decoded` and has not decoded yet |
| `JwtStrategy.Strategy.Expected` | lib/omniauth/strategies/jwt.rb:25-36 | `decoded` succeeds only with the decoded payload itself, and a token the gem rejects gives a decode error |
| `JwtStrategy.Strategy.Decoded` | lib/omniauth/strategies/jwt.rb:25-36 | result equals `Expected(now)`; the payload is decoded only when `@decoded` is empty and is cached afterwards; the checks run on every call |
| `JwtStrategy.Strategy.Uid` | lib/omniauth/strategies/jwt.rb:44-50 | on a valid payload the uid is `decoded[uid_claim]` for a String uid claim (nil if absent), the lookup's answer otherwise; failures of `decoded` propagate |
| `JwtStrategy.Strategy.Extra` | lib/omniauth/strategies/jwt.rb:52-54 | on a valid payload `extra` wraps the whole payload as `raw_info`; failures propagate |
| `JwtStrategy.Strategy.Info` | lib/omniauth/strategies/jwt.rb:56-61 | an empty info map gives `{}` without decoding; otherwise the profile hash of the payload, or the failure of `decoded` |
| `JwtStrategy.Attempt` | lib/omniauth/strategies/jwt.rb:25-61 | what uid, info and extra each return when called in turn on one fresh instance: a token that decodes is decoded once and all three agree with the claim policy on that payload; a token the gem rejects gives decode errors (info gives `{}` for an empty info map) and is decoded again by each call that reaches `decoded` |

## Left out

- `::JWT.decode` (line 27) is not modelled. Base64 handling, JSON parsing and
  signature checking happen in the external `jwt` gem. The model takes the
  decoded payload (or the fact that the gem raised) as the constant
  `Strategy.payload`.
  - The model assumes that payload is a Hash.
  - `options.algorithm` only reaches the gem, so it is not modelled either.
- `secret`, `secret_lookup` and the `||=` memoisation in `uid_lookup`
  (lines 65-79) are not modelled. They instantiate user-supplied classes,
  chosen by an `is_a?(String)` check on the option (lines 45, 66) and built
  from the request (lines 74, 78).
  - The secret only feeds the gem, so it is folded into `payload`.
  - The uid lookup is the `UidLookup` function of `Identity.UidSource`.
- `request_phase`, `callback_phase` (`super`, and `fail!` on `ClaimInvalid`),
  the `args` declaration and the `Jwt` alias (lines 9-12, 21-23, 38-42, 82) are
  not modelled. They are plumbing of the host OmniAuth framework.
- Of the options declared on lines 13-19, only `required_claims`,
  `valid_within`, `uid_claim` and `info_map` are modelled. `secret` and
  `algorithm` only reach the gem, and `auth_url` only feeds the
  `request_phase` redirect.
- The clock `Time.now.to_i` is not modelled. Each call takes `now` as a
  parameter.
  - `JwtStrategy.Strategy.Info` calls `decoded` once per pair, and Ruby
    reads the clock on each of those calls. The model uses one `now` for the
    whole `info` call, so it does not capture the clock advancing between
    pairs.
- Float `iat` values are compared as exact reals. IEEE rounding of
  `Time.now.to_i - iat` is not modelled.
- Symbol keys are not modelled. Only two options are stringified by the code:
  the `required_claims` entries (line 31) and both sides of the `info_map`
  pairs (line 58). The model takes these as strings after `to_s`. Two Ruby
  keys that stringify alike appear as two pairs with the same output name, and
  the last one wins, as in the source.
- A `uid_claim` that is not a String, a Symbol included, goes to `uid_lookup`
  (line 45), which calls `.new` on it (line 78). The model has only the
  `UidLookup` function for this case; the error Ruby raises for a Symbol is
  not modelled.
- `decoded` caches only the decode (line 26). It re-runs every claim check on
  each call (lines 30-34), and the model does the same.
- The `iat` presence test is Ruby truthiness (line 33), so a key holding nil or
  false fails it like a missing key.
- Info-map entries are only ever looked up as claim names (line 58). No
  credential exchange happens in this file.
