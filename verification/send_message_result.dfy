/** `api.SendMessageResult`: the outcome of sending to one recipient, as
    five flags and an optional proof-required failure. */
module SendMessageResult {
  import opened Wrappers
  import opened JavaTypes
  import Api = ApiRecipientAddress

  /** The service's proof-required failure: a challenge token and the time
      to wait before retrying. */
  datatype ProofRequired = ProofRequired(token: string, retryAfterSeconds: Int64)

  /** `api.ProofRequiredException`, built from the service's failure. */
  datatype ProofRequiredException = ProofRequiredException(cause: ProofRequired)

  datatype SendMessageResult = SendMessageResult(
    address: Api.RecipientAddress,
    isSuccess: bool,
    isNetworkFailure: bool,
    isUnregisteredFailure: bool,
    isIdentityFailure: bool,
    isRateLimitFailure: bool,
    proofRequiredFailure: Option<ProofRequiredException>)

  /** The library's own send result: which of its failure objects are
      non-null. Only their presence is read here. */
  datatype ServiceSendResult = ServiceSendResult(
    success: bool,
    networkFailure: bool,
    unregisteredFailure: bool,
    identityFailure: Option<seq<Byte>>,      // the new identity key
    rateLimitFailure: Option<Int64>,         // the retry-after time
    proofRequiredFailure: Option<ProofRequired>)

  /** The number of flags set. */
  function FlagCount(r: SendMessageResult): (n: nat)
    ensures n <= 5
  {
    (if r.isSuccess then 1 else 0) + (if r.isNetworkFailure then 1 else 0)
      + (if r.isUnregisteredFailure then 1 else 0) + (if r.isIdentityFailure then 1 else 0)
      + (if r.isRateLimitFailure then 1 else 0)
  }

  function SuccessOf(address: Api.RecipientAddress): (r: SendMessageResult)
    ensures r.address == address && r.isSuccess && FlagCount(r) == 1 && r.proofRequiredFailure.None?
  {
    SendMessageResult(address, true, false, false, false, false, None)
  }

  function NetworkFailureOf(address: Api.RecipientAddress): (r: SendMessageResult)
    ensures r.address == address && r.isNetworkFailure && FlagCount(r) == 1 && r.proofRequiredFailure.None?
  {
    SendMessageResult(address, false, true, false, false, false, None)
  }

  function UnregisteredFailureOf(address: Api.RecipientAddress): (r: SendMessageResult)
    ensures r.address == address && r.isUnregisteredFailure && FlagCount(r) == 1 && r.proofRequiredFailure.None?
  {
    SendMessageResult(address, false, false, true, false, false, None)
  }

  /** The identity key is not kept. */
  function IdentityFailureOf(address: Api.RecipientAddress, identityKey: seq<Byte>): (r: SendMessageResult)
    ensures r.address == address && r.isIdentityFailure && FlagCount(r) == 1 && r.proofRequiredFailure.None?
  {
    SendMessageResult(address, false, false, false, true, false, None)
  }

  /** The identity key argument does not change the result. */
  lemma IdentityKeyIgnored(address: Api.RecipientAddress, k1: seq<Byte>, k2: seq<Byte>)
    ensures IdentityFailureOf(address, k1) == IdentityFailureOf(address, k2)
  {
  }

  /** A proof-required failure is reported as a network failure, not as a
      rate-limit failure, and keeps the exception. */
  function ProofRequiredFailureOf(address: Api.RecipientAddress, e: ProofRequiredException): (r: SendMessageResult)
    ensures r.address == address && r.isNetworkFailure && !r.isRateLimitFailure && FlagCount(r) == 1
    ensures r.proofRequiredFailure == Some(e)
  {
    SendMessageResult(address, false, true, false, false, false, Some(e))
  }

  /** `from(result, ...)`: the flags of the library's result. The address
      is the library's address resolved to a recipient and back to an api
      address; the resolvers are not part of this model, so it comes in as
      `address`. */
  function From(s: ServiceSendResult, address: Api.RecipientAddress): (r: SendMessageResult)
    ensures r.address == address
    ensures r.isSuccess == s.success && r.isNetworkFailure == s.networkFailure
    ensures r.isUnregisteredFailure == s.unregisteredFailure
    ensures r.isIdentityFailure <==> s.identityFailure.Some?
    ensures r.isRateLimitFailure <==> s.rateLimitFailure.Some? || s.proofRequiredFailure.Some?
    ensures r.proofRequiredFailure.Some? <==> s.proofRequiredFailure.Some?
    ensures s.proofRequiredFailure.Some? ==> r.proofRequiredFailure.value.cause == s.proofRequiredFailure.value
  {
    SendMessageResult(address, s.success, s.networkFailure, s.unregisteredFailure,
      s.identityFailure.Some?, s.rateLimitFailure.Some? || s.proofRequiredFailure.Some?,
      if s.proofRequiredFailure.None? then None else Some(ProofRequiredException(s.proofRequiredFailure.value)))
  }

  /** The two ways to a proof-required result disagree on the rate-limit
      flag: `from` sets it, the factory does not. */
  lemma ProofRequiredPaths(address: Api.RecipientAddress, p: ProofRequired)
    ensures var viaFrom := From(ServiceSendResult(false, true, false, None, None, Some(p)), address);
      var viaFactory := ProofRequiredFailureOf(address, ProofRequiredException(p));
      && viaFrom.isRateLimitFailure && !viaFactory.isRateLimitFailure
      && viaFrom.proofRequiredFailure == viaFactory.proofRequiredFailure
      && viaFrom.isNetworkFailure == viaFactory.isNetworkFailure
  {
  }

  /** Every library result with exactly one outcome other than a
      proof-required failure maps to the factory result for that outcome. */
  lemma FromAgreesWithFactories(s: ServiceSendResult, address: Api.RecipientAddress, key: seq<Byte>)
    ensures s == ServiceSendResult(true, false, false, None, None, None) ==> From(s, address) == SuccessOf(address)
    ensures s == ServiceSendResult(false, true, false, None, None, None) ==> From(s, address) == NetworkFailureOf(address)
    ensures s == ServiceSendResult(false, false, true, None, None, None) ==> From(s, address) == UnregisteredFailureOf(address)
    ensures s == ServiceSendResult(false, false, false, Some(key), None, None) ==> From(s, address) == IdentityFailureOf(address, key)
  {
  }
}
