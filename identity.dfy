/** The identity the strategy derives from a validated payload: `uid`
    (lib/omniauth/strategies/jwt.rb:44-50), `info` (lines 56-61) and `extra`
    (lines 52-54). */
module Identity {
  import opened Claims

  /** `options.uid_claim`: a claim name (a String), or a lookup class built from
      the request whose `uid` method maps the payload to the uid. That class is
      user code; the model takes its answer as a function. */
  datatype UidSource = UidClaim(name: string) | UidLookup(lookup: ClaimSet -> Value)

  /** The uid of a payload: the named claim's value (nil when absent), or the lookup's answer. */
  function UidOf(c: ClaimSet, source: UidSource): Value {
    match source
    case UidClaim(name) => Lookup(c, name)
    case UidLookup(lookup) => lookup(c)
  }

  /** `options.info_map` with `to_s` applied to both sides: ordered pairs of
      (output field, source claim). Two pairs may share an output field when
      distinct Ruby keys stringify alike (a symbol and a string). */
  type InfoMap = seq<(string, string)>

  /** The hash `info_map.inject({})` builds: pairs are folded in order, each output
      field bound to its source claim's value, nil when the claim is absent. */
  function InfoHash(infoMap: InfoMap, c: ClaimSet): (h: map<string, Value>)
    ensures forall k :: k in h <==> exists i :: 0 <= i < |infoMap| && infoMap[i].0 == k
  {
    if infoMap == [] then map[]
    else
      var last := infoMap[|infoMap| - 1];
      InfoHash(infoMap[..|infoMap| - 1], c)[last.0 := Lookup(c, last.1)]
  }

  /** A field takes the value of the LAST pair naming it; an absent source claim
      gives nil and is not an error. */
  lemma {:induction false} InfoHashLastWins(infoMap: InfoMap, c: ClaimSet, i: int)
    requires 0 <= i < |infoMap|
    requires forall j :: i < j < |infoMap| ==> infoMap[j].0 != infoMap[i].0
    ensures infoMap[i].0 in InfoHash(infoMap, c)
    ensures InfoHash(infoMap, c)[infoMap[i].0] ==
            (if infoMap[i].1 in c then c[infoMap[i].1] else Null)
  {
    var n := |infoMap|;
    if i < n - 1 {
      var prefix := infoMap[..n - 1];
      forall j | i < j < |prefix| ensures prefix[j].0 != prefix[i].0 {
        assert prefix[j] == infoMap[j];
      }
      InfoHashLastWins(prefix, c, i);
    }
  }

  /** With distinct output fields, every field maps to its own source claim. */
  lemma InfoHashDistinct(infoMap: InfoMap, c: ClaimSet)
    requires forall i, j :: 0 <= i < j < |infoMap| ==> infoMap[i].0 != infoMap[j].0
    ensures forall i :: 0 <= i < |infoMap| ==>
              infoMap[i].0 in InfoHash(infoMap, c) &&
              InfoHash(infoMap, c)[infoMap[i].0] == Lookup(c, infoMap[i].1)
  {
    forall i | 0 <= i < |infoMap|
      ensures infoMap[i].0 in InfoHash(infoMap, c)
      ensures InfoHash(infoMap, c)[infoMap[i].0] == Lookup(c, infoMap[i].1)
    {
      InfoHashLastWins(infoMap, c, i);
    }
  }

  /** An example info map over a payload that lacks the `email` source claim:
      that field comes out nil. */
  lemma InfoHashExample()
    ensures InfoHash([("name", "fullName"), ("email", "email")],
                     map["fullName" := Str("A B")]) ==
            map["name" := Str("A B"), "email" := Null]
  {
    var im := [("name", "fullName"), ("email", "email")];
    var c := map["fullName" := Str("A B")];
    assert im[..1] == [("name", "fullName")];
    assert im[..1][..0] == [];
  }

  /** `extra`: `{:raw_info => decoded}`. */
  datatype ExtraHash = ExtraHash(rawInfo: ClaimSet)
}
