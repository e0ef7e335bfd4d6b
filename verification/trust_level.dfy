/** `TrustLevel`: how far an identity key is trusted, and its conversions
    to and from the verification states of the storage and sync protocols. */
module TrustLevel {
  import opened Wrappers
  import opened JavaTypes

  /** Declared in this order; `ordinal()` is the position. */
  datatype TrustLevel = Untrusted | TrustedUnverified | TrustedVerified

  /** `ContactRecord.IdentityState`, as the storage service sends it. */
  datatype IdentityState = IdentityDefault | IdentityVerified | IdentityUnverified | IdentityUnrecognized

  /** `VerifiedMessage.VerifiedState`, as a sync message carries it. */
  datatype VerifiedState = StateDefault | StateVerified | StateUnverified

  /** `TrustLevel.values()`. */
  const VALUES: seq<TrustLevel> := [Untrusted, TrustedUnverified, TrustedVerified]

  /** The position of a level in `VALUES`. */
  function Ordinal(t: TrustLevel): (i: nat)
    ensures i < |VALUES| && VALUES[i] == t
  {
    match t
    case Untrusted => 0
    case TrustedUnverified => 1
    case TrustedVerified => 2
  }

  /** `ArrayIndexOutOfBoundsException`. */
  datatype IndexError = IndexOutOfBounds(index: Int32)

  function FromIdentityState(s: IdentityState): (r: Option<TrustLevel>)
    ensures r.None? <==> s == IdentityUnrecognized
  {
    match s
    case IdentityDefault => Some(TrustedUnverified)
    case IdentityUnverified => Some(Untrusted)
    case IdentityVerified => Some(TrustedVerified)
    case IdentityUnrecognized => None
  }

  /** Each verified state names its own level: unverified is untrusted,
      verified is trusted and verified, default is trusted. */
  function FromVerifiedState(s: VerifiedState): (r: TrustLevel)
    ensures r == Untrusted <==> s == StateUnverified
    ensures r == TrustedVerified <==> s == StateVerified
  {
    match s
    case StateDefault => TrustedUnverified
    case StateUnverified => Untrusted
    case StateVerified => TrustedVerified
  }

  function ToVerifiedState(t: TrustLevel): (s: VerifiedState)
    ensures FromVerifiedState(s) == t
  {
    match t
    case TrustedUnverified => StateDefault
    case Untrusted => StateUnverified
    case TrustedVerified => StateVerified
  }

  /** A level is trusted when it is at least `TRUSTED_UNVERIFIED` in
      declaration order. */
  predicate IsTrusted(t: TrustLevel)
    ensures IsTrusted(t) <==> Ordinal(t) >= Ordinal(TrustedUnverified)
    ensures IsTrusted(t) <==> t != Untrusted
  {
    match t
    case TrustedUnverified => true
    case TrustedVerified => true
    case Untrusted => false
  }

  /** `toVerifiedState` is a bijection whose inverse is `fromVerifiedState`. */
  lemma VerifiedStateBijection(t: TrustLevel, u: TrustLevel, s: VerifiedState)
    ensures ToVerifiedState(t) == ToVerifiedState(u) ==> t == u
    ensures ToVerifiedState(FromVerifiedState(s)) == s
  {
  }

  /** The storage and the sync states name the same levels. */
  lemma IdentityStateAgrees(s: IdentityState)
    requires s != IdentityUnrecognized
    ensures FromIdentityState(s) == Some(FromVerifiedState(
      match s
      case IdentityDefault => StateDefault
      case IdentityUnverified => StateUnverified
      case _ => StateVerified))
  {
  }

  /** The static `cachedValues` field of the enum. */
  class TrustLevelCache {
    var cachedValues: Option<seq<TrustLevel>>

    constructor()
      ensures cachedValues.None?
    {
      cachedValues := None;
    }

    /** `fromInt(i)`: fills the cache on first use, then indexes it; an
        index outside 0..2 throws. */
    method FromInt(i: Int32) returns (r: Result<TrustLevel, IndexError>)
      requires cachedValues.None? || cachedValues == Some(VALUES)
      modifies this
      ensures cachedValues == Some(VALUES)
      ensures r.Success? <==> 0 <= i < |VALUES|
      ensures r.Success? ==> r.value == VALUES[i] && Ordinal(r.value) == i
      ensures r.Failure? ==> r.error == IndexOutOfBounds(i)
    {
      if cachedValues.None? {
        cachedValues := Some(VALUES);
      }
      var values := cachedValues.value;
      if i < 0 || i >= |values| {
        return Failure(IndexOutOfBounds(i));
      }
      return Success(values[i]);
    }
  }
}
