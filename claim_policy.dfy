/** The claim policy that `decoded` applies to a decoded payload
    (lib/omniauth/strategies/jwt.rb:30-35): every required claim present,
    checked in list order, then, when a window is configured, an `iat` claim
    that is present and within the window of the current time. */
module ClaimPolicy {
  import opened Claims

  /** `(options.required_claims || [])`: an unset list means no required claim. */
  function Required(required: Option<seq<string>>): seq<string> {
    if required.Some? then required.value else []
  }

  function MissingClaimMessage(name: string): string {
    "Missing required '" + name + "' claim."
  }

  const MissingIatMessage: string := "Missing required 'iat' claim."

  const SkewMessage: string := "'iat' timestamp claim is too skewed from present."

  /** `required[i]` is the first name of the list that is not a key of `claims`. */
  ghost predicate FirstAbsentAt(claims: ClaimSet, required: seq<string>, i: int) {
    0 <= i < |required| && required[i] !in claims &&
    forall j :: 0 <= j < i ==> required[j] in claims
  }

  /** The name the fail-fast presence check reports, if any. Presence means the
      key exists: a key mapped to nil counts as present. */
  function FirstMissing(claims: ClaimSet, required: seq<string>): (r: Option<string>)
    ensures r.Some? ==> r.value in required && r.value !in claims
    ensures r.None? ==> forall i :: 0 <= i < |required| ==> required[i] in claims
  {
    if required == [] then None
    else if required[0] !in claims then Some(required[0])
    else FirstMissing(claims, required[1..])
  }

  /** The reported name is the first absent one in list order. */
  lemma {:induction false} FirstMissingAt(claims: ClaimSet, required: seq<string>, i: int)
    requires FirstAbsentAt(claims, required, i)
    ensures FirstMissing(claims, required) == Some(required[i])
  {
    if i > 0 {
      assert required[0] in claims;
      assert FirstAbsentAt(claims, required[1..], i - 1) by {
        forall j | 0 <= j < i - 1 ensures required[1..][j] in claims {
          assert required[1..][j] == required[j + 1];
        }
      }
      FirstMissingAt(claims, required[1..], i - 1);
    }
  }

  /** A reported name is absent and every name before it is present. */
  lemma {:induction false} FirstMissingWitness(claims: ClaimSet, required: seq<string>) returns (i: int)
    requires FirstMissing(claims, required).Some?
    ensures FirstAbsentAt(claims, required, i) && required[i] == FirstMissing(claims, required).value
  {
    if required[0] !in claims {
      i := 0;
    } else {
      var j := FirstMissingWitness(claims, required[1..]);
      i := j + 1;
      forall k | 0 <= k < i ensures required[k] in claims {
        if k > 0 { assert required[k] == required[1..][k - 1]; }
      }
    }
  }

  /** No name is reported exactly when every required name is a key. */
  lemma {:induction false} FirstMissingNoneIff(claims: ClaimSet, required: seq<string>)
    ensures FirstMissing(claims, required).None? <==>
            forall i :: 0 <= i < |required| ==> required[i] in claims
  {
    if FirstMissing(claims, required).Some? {
      var i := FirstMissingWitness(claims, required);
    }
  }

  /** The loop of line 30-32: walk the list in order and stop at the first
      name that is not a key of the payload. */
  method FirstMissingClaim(claims: ClaimSet, required: seq<string>) returns (missing: Option<string>)
    ensures missing == FirstMissing(claims, required)
  {
    var i := 0;
    while i < |required|
      invariant 0 <= i <= |required|
      invariant forall j :: 0 <= j < i ==> required[j] in claims
    {
      if required[i] !in claims {
        FirstMissingAt(claims, required, i);
        return Some(required[i]);
      }
      i := i + 1;
    }
    FirstMissingNoneIff(claims, required);
    return None;
  }

  function Abs(x: real): real {
    if x < 0.0 then -x else x
  }

  /** `(now - iat).abs` for a numeric `iat`; None where Ruby's subtraction
      raises a TypeError (a string, true, an array or an object). */
  function Skew(now: int, iat: Value): (r: Option<real>)
    ensures r.Some? <==> iat.Int? || iat.Float?
    ensures r.Some? ==> r.value >= 0.0
  {
    match iat
    case Int(t) => Some(Abs((now - t) as real))
    case Float(f) => Some(Abs(now as real - f))
    case _ => None
  }

  /** Lines 33-34 with a window configured: a missing or falsy `iat` is
      reported first, then a skew strictly larger than the window. */
  function CheckIat(claims: ClaimSet, window: int, now: int): (r: Outcome<ClaimSet>)
    ensures r.Ok? <==> Truthy(Lookup(claims, "iat")) && Skew(now, claims["iat"]).Some? &&
                       Skew(now, claims["iat"]).value <= window as real
    ensures r.Ok? ==> r.value == claims
    ensures !r.DecodeError?
  {
    if !Truthy(Lookup(claims, "iat")) then ClaimInvalid(MissingIatMessage)
    else match Skew(now, claims["iat"])
      case None => IatTypeError
      case Some(d) => if d > window as real then ClaimInvalid(SkewMessage) else Ok(claims)
  }

  /** What `decoded` returns or raises for a payload that decoded successfully,
      the current time being `now`. On success the payload comes back unchanged. */
  function Validate(claims: ClaimSet, required: Option<seq<string>>, validWithin: Option<int>, now: int)
    : (r: Outcome<ClaimSet>)
    ensures r.Ok? ==> r.value == claims
    ensures r.Ok? ==> forall i :: 0 <= i < |Required(required)| ==> Required(required)[i] in claims
    ensures r.Ok? && validWithin.Some? ==> "iat" in claims && Truthy(claims["iat"])
    ensures r.Ok? && validWithin.Some? ==> Skew(now, claims["iat"]).Some? &&
                                           Skew(now, claims["iat"]).value <= validWithin.value as real
    ensures !r.DecodeError?
  {
    match FirstMissing(claims, Required(required))
    case Some(name) => ClaimInvalid(MissingClaimMessage(name))
    case None =>
      if validWithin.None? then Ok(claims)
      else CheckIat(claims, validWithin.value, now)
  }

  /** With every required claim present and no window, the payload is accepted
      unchanged, whatever `iat` holds and whatever the time. */
  lemma AllPresentWithoutWindow(claims: ClaimSet, required: Option<seq<string>>, now: int)
    requires forall i :: 0 <= i < |Required(required)| ==> Required(required)[i] in claims
    ensures Validate(claims, required, None, now) == Ok(claims)
  {
    FirstMissingNoneIff(claims, Required(required));
  }

  /** Without a window the outcome is decided by presence alone: accepted iff
      every required name is a key, else the first absent name is reported. */
  lemma WithoutWindowOnlyPresence(claims: ClaimSet, required: Option<seq<string>>, now: int)
    ensures Validate(claims, required, None, now).Ok? <==>
            forall i :: 0 <= i < |Required(required)| ==> Required(required)[i] in claims
    ensures !Validate(claims, required, None, now).Ok? ==>
            exists i :: FirstAbsentAt(claims, Required(required), i) &&
                        Validate(claims, required, None, now) == ClaimInvalid(MissingClaimMessage(Required(required)[i]))
  {
    var req := Required(required);
    FirstMissingNoneIff(claims, req);
    if FirstMissing(claims, req).Some? {
      var i := FirstMissingWitness(claims, req);
    }
  }

  /** The first absent required name is reported, and it takes precedence over
      every `iat` rule: the window, the time and the `iat` value do not matter. */
  lemma MissingClaimFirst(claims: ClaimSet, required: Option<seq<string>>, validWithin: Option<int>, now: int, i: int)
    requires FirstAbsentAt(claims, Required(required), i)
    ensures Validate(claims, required, validWithin, now) == ClaimInvalid(MissingClaimMessage(Required(required)[i]))
  {
    FirstMissingAt(claims, Required(required), i);
  }

  /** An unset required list never yields a presence error: it behaves as the empty list. */
  lemma NilRequiredIsEmpty(claims: ClaimSet, validWithin: Option<int>, now: int)
    ensures Validate(claims, None, validWithin, now) == Validate(claims, Some([]), validWithin, now)
    ensures validWithin.None? ==> Validate(claims, None, validWithin, now) == Ok(claims)
    ensures validWithin.Some? ==> Validate(claims, None, validWithin, now) == CheckIat(claims, validWithin.value, now)
  {
  }

  /** With a window, an absent, nil or false `iat` is reported once every
      required claim is present, whether or not `iat` is itself required. */
  lemma MissingIatReported(claims: ClaimSet, required: Option<seq<string>>, window: int, now: int)
    requires forall i :: 0 <= i < |Required(required)| ==> Required(required)[i] in claims
    requires "iat" !in claims || claims["iat"] == Null || claims["iat"] == Bool(false)
    ensures Validate(claims, required, Some(window), now) == ClaimInvalid(MissingIatMessage)
  {
    FirstMissingNoneIff(claims, Required(required));
  }

  function IntAbs(x: int): nat {
    if x < 0 then -x else x
  }

  /** With a window and a numeric `iat` (Integer or Float), the skew message is
      raised iff |now - iat| exceeds the window strictly; otherwise the payload is
      accepted. For an Integer `iat` the skew is the integer distance. */
  lemma SkewRule(claims: ClaimSet, required: Option<seq<string>>, window: int, now: int)
    requires forall i :: 0 <= i < |Required(required)| ==> Required(required)[i] in claims
    requires "iat" in claims && (claims["iat"].Int? || claims["iat"].Float?)
    ensures Validate(claims, required, Some(window), now) == ClaimInvalid(SkewMessage) <==>
            Skew(now, claims["iat"]).value > window as real
    ensures Validate(claims, required, Some(window), now) == Ok(claims) <==>
            Skew(now, claims["iat"]).value <= window as real
    ensures claims["iat"].Int? ==> Skew(now, claims["iat"]).value == IntAbs(now - claims["iat"].i) as real
  {
    FirstMissingNoneIff(claims, Required(required));
  }

  /** The skew check is symmetric: an `iat` d seconds in the past is treated
      like one d seconds in the future. */
  lemma SkewSymmetric(claims: ClaimSet, required: Option<seq<string>>, window: int, now: int, d: int)
    requires forall i :: 0 <= i < |Required(required)| ==> Required(required)[i] in claims
    ensures Validate(claims["iat" := Int(now - d)], required, Some(window), now).Ok? <==>
            Validate(claims["iat" := Int(now + d)], required, Some(window), now).Ok?
  {
    var past, future := claims["iat" := Int(now - d)], claims["iat" := Int(now + d)];
    SkewRule(past, required, window, now);
    SkewRule(future, required, window, now);
  }

  /** An `iat` exactly `window` seconds away passes; one second more fails. */
  lemma SkewBoundary(claims: ClaimSet, required: Option<seq<string>>, window: nat, now: int)
    requires forall i :: 0 <= i < |Required(required)| ==> Required(required)[i] in claims
    ensures Validate(claims["iat" := Int(now - window)], required, Some(window), now).Ok?
    ensures Validate(claims["iat" := Int(now + window)], required, Some(window), now).Ok?
    ensures Validate(claims["iat" := Int(now - window - 1)], required, Some(window), now) == ClaimInvalid(SkewMessage)
  {
    SkewRule(claims["iat" := Int(now - window)], required, window, now);
    SkewRule(claims["iat" := Int(now + window)], required, window, now);
    SkewRule(claims["iat" := Int(now - window - 1)], required, window, now);
  }

  /** A present `iat` that is not a number makes the subtraction raise. */
  lemma NonNumericIat(claims: ClaimSet, required: Option<seq<string>>, window: int, now: int)
    requires forall i :: 0 <= i < |Required(required)| ==> Required(required)[i] in claims
    requires "iat" in claims && (claims["iat"].Str? || claims["iat"] == Bool(true) || claims["iat"].Other?)
    ensures Validate(claims, required, Some(window), now) == IatTypeError
  {
    FirstMissingNoneIff(claims, Required(required));
  }

  /** The presence message names its claim: distinct names give distinct messages. */
  lemma {:induction false} MissingClaimMessageInjective(a: string, b: string)
    requires MissingClaimMessage(a) == MissingClaimMessage(b)
    ensures a == b
  {
    var p, s := "Missing required '", "' claim.";
    var ma, mb := MissingClaimMessage(a), MissingClaimMessage(b);
    assert |a| == |b|;
    forall k | 0 <= k < |a| ensures a[k] == b[k] {
      assert ma[|p| + k] == a[k];
      assert mb[|p| + k] == b[k];
    }
  }

  /** The three rules raise messages that tell them apart, except that a missing
      required 'iat' and a missing windowed 'iat' share one text. */
  lemma MessagesDistinguishRules(name: string)
    ensures MissingClaimMessage(name) != SkewMessage
    ensures MissingIatMessage != SkewMessage
    ensures MissingClaimMessage("iat") == MissingIatMessage
  {
    assert MissingClaimMessage(name)[0] == 'M';
    assert SkewMessage == "'iat' timestamp claim" + " is too skewed from present.";
  }
}
