/** The strategy instance (lib/omniauth/strategies/jwt.rb:6-80): its options,
    the `@decoded` cache, and the `decoded`, `uid`, `info` and `extra` calls. */
module JwtStrategy {
  import opened Claims
  import opened ClaimPolicy
  import opened Identity

  /** The options `decoded` and the identity calls read (lines 15-19). */
  datatype Options = Options(
    requiredClaims: Option<seq<string>>,
    validWithin: Option<int>,
    uidClaim: UidSource,
    infoMap: InfoMap)

  /** The declared defaults: uid from "email", "name" and "email" required and
      copied into the profile, no window. */
  function DefaultOptions(): Options {
    Options(Some(["name", "email"]), None, UidClaim("email"), [("name", "name"), ("email", "email")])
  }

  /** Under the default options a payload is accepted iff it has the keys
      "name" and "email", whatever the time. */
  lemma DefaultOptionsAccept(claims: ClaimSet, now: int)
    ensures Validate(claims, DefaultOptions().requiredClaims, DefaultOptions().validWithin, now).Ok? <==>
            "name" in claims && "email" in claims
  {
    WithoutWindowOnlyPresence(claims, DefaultOptions().requiredClaims, now);
    assert Required(DefaultOptions().requiredClaims)[1] == "email";
  }

  class Strategy {
    const options: Options
    /** What `::JWT.decode(request.params['jwt'], secret, options.algorithm)`
        yields for this instance's request: the payload, or None when it raises.
        The request, the secret and the algorithm are fixed for the instance. */
    const payload: Option<ClaimSet>
    /** `@decoded`. */
    var decoded: Option<ClaimSet>
    /** How many times `::JWT.decode` has been called. */
    ghost var decodeCalls: nat

    /** The cache only ever holds the decoded payload, and a payload that
        decodes is decoded at most once. */
    ghost predicate Valid()
      reads this
    {
      (decoded.Some? ==> decoded == payload) &&
      (payload.Some? ==> decodeCalls == if decoded.Some? then 1 else 0)
    }

    constructor (options: Options, payload: Option<ClaimSet>)
      ensures Valid()
      ensures this.options == options && this.payload == payload
      ensures decoded.None? && decodeCalls == 0
    {
      this.options := options;
      this.payload := payload;
      decoded := None;
      decodeCalls := 0;
    }

    /** What `decoded` returns or raises at time `now`. */
    function Expected(now: int): (r: Outcome<ClaimSet>)
      ensures r.Ok? ==> payload == Some(r.value)
      ensures payload.None? ==> r.DecodeError?
    {
      if payload.None? then DecodeError
      else Validate(payload.value, options.requiredClaims, options.validWithin, now)
    }

    /** `decoded` (lines 25-36): decode unless cached, then run every check again. */
    method Decoded(now: int) returns (r: Outcome<ClaimSet>)
      requires Valid()
      modifies this`decoded, this`decodeCalls
      ensures Valid()
      ensures r == Expected(now)
      ensures decoded == if old(decoded).Some? then old(decoded) else payload
      ensures decodeCalls == old(decodeCalls) + if old(decoded).None? then 1 else 0
    {
      if decoded.None? {
        decodeCalls := decodeCalls + 1;
        decoded := payload;
        if decoded.None? {
          return DecodeError;
        }
      }
      var claims := decoded.value;
      var missing := FirstMissingClaim(claims, Required(options.requiredClaims));
      if missing.Some? {
        return ClaimInvalid(MissingClaimMessage(missing.value));
      }
      if options.validWithin.Some? {
        return CheckIat(claims, options.validWithin.value, now);
      }
      return Ok(claims);
    }

    /** `uid` (lines 44-50). */
    method Uid(now: int) returns (r: Outcome<Value>)
      requires Valid()
      modifies this`decoded, this`decodeCalls
      ensures Valid()
      ensures Expected(now).Ok? && options.uidClaim.UidClaim? ==>
                r == Ok(Lookup(payload.value, options.uidClaim.name))
      ensures Expected(now).Ok? && options.uidClaim.UidLookup? ==>
                r == Ok(options.uidClaim.lookup(payload.value))
      ensures !Expected(now).Ok? ==> r == Propagate(Expected(now))
      ensures decoded == if old(decoded).Some? then old(decoded) else payload
      ensures decodeCalls == old(decodeCalls) + if old(decoded).None? then 1 else 0
    {
      var d := Decoded(now);
      if !d.Ok? {
        return Propagate(d);
      }
      return Ok(UidOf(d.value, options.uidClaim));
    }

    /** `extra` (lines 52-54). */
    method Extra(now: int) returns (r: Outcome<ExtraHash>)
      requires Valid()
      modifies this`decoded, this`decodeCalls
      ensures Valid()
      ensures Expected(now).Ok? ==> r == Ok(ExtraHash(payload.value))
      ensures !Expected(now).Ok? ==> r == Propagate(Expected(now))
      ensures decoded == if old(decoded).Some? then old(decoded) else payload
      ensures decodeCalls == old(decodeCalls) + if old(decoded).None? then 1 else 0
    {
      var d := Decoded(now);
      if !d.Ok? {
        return Propagate(d);
      }
      return Ok(ExtraHash(d.value));
    }

    /** `info` (lines 56-61): the fold calls `decoded` once per pair, so an
        empty info map never decodes and yields an empty hash even for a bad token. */
    method Info(now: int) returns (r: Outcome<map<string, Value>>)
      requires Valid()
      modifies this`decoded, this`decodeCalls
      ensures Valid()
      ensures options.infoMap == [] ==> r == Ok(map[])
      ensures options.infoMap != [] && Expected(now).Ok? ==> r == Ok(InfoHash(options.infoMap, payload.value))
      ensures options.infoMap != [] && !Expected(now).Ok? ==> r == Propagate(Expected(now))
      ensures decoded == if old(decoded).Some? || options.infoMap == [] then old(decoded) else payload
      ensures decodeCalls == old(decodeCalls) + if old(decoded).None? && options.infoMap != [] then 1 else 0
    {
      var infoMap := options.infoMap;
      var h: map<string, Value> := map[];
      var i := 0;
      while i < |infoMap|
        invariant 0 <= i <= |infoMap|
        invariant Valid()
        invariant i == 0 ==> h == map[] && decoded == old(decoded) && decodeCalls == old(decodeCalls)
        invariant i > 0 ==> Expected(now).Ok? && h == InfoHash(infoMap[..i], payload.value)
        invariant i > 0 ==> decoded == (if old(decoded).Some? then old(decoded) else payload)
        invariant i > 0 ==> decodeCalls == old(decodeCalls) + if old(decoded).None? then 1 else 0
      {
        var (name, source) := infoMap[i];
        var d := Decoded(now);
        if !d.Ok? {
          return Propagate(d);
        }
        assert infoMap[..i + 1][..i] == infoMap[..i];
        h := h[name := Lookup(d.value, source)];
        i := i + 1;
      }
      assert infoMap[..i] == infoMap;
      return Ok(h);
    }
  }

  /** What `uid`, `info` and `extra` each return when called in turn on one fresh
      instance. A token that decodes is decoded once, all three see the same
      payload, and each reports the outcome of the claim policy. A token the gem
      rejects is decoded again by every call that reaches `decoded`. In Ruby a `ClaimInvalid`
      from the first call ends the attempt through `callback_phase`'s rescue, so
      the later calls would not happen there. */
  method Attempt(options: Options, payload: Option<ClaimSet>, now: int)
    returns (uid: Outcome<Value>, info: Outcome<map<string, Value>>, extra: Outcome<ExtraHash>, ghost decodes: nat)
    ensures payload.Some? ==> decodes == 1
    ensures payload.None? ==> uid == DecodeError && extra == DecodeError
    ensures payload.None? ==> info == if options.infoMap == [] then Ok(map[]) else DecodeError
    ensures payload.None? ==> decodes == if options.infoMap == [] then 2 else 3
    ensures payload.Some? ==>
              var v := Validate(payload.value, options.requiredClaims, options.validWithin, now);
              (v.Ok? ==> uid == Ok(UidOf(payload.value, options.uidClaim)) &&
                         extra == Ok(ExtraHash(payload.value)) &&
                         info == Ok(InfoHash(options.infoMap, payload.value))) &&
              (!v.Ok? ==> uid == Propagate(v) && extra == Propagate(v) &&
                          info == (if options.infoMap == [] then Ok(map[]) else Propagate(v)))
  {
    var s := new Strategy(options, payload);
    uid := s.Uid(now);
    info := s.Info(now);
    extra := s.Extra(now);
    decodes := s.decodeCalls;
  }
}
