/**
  Role trust stores of `crates/identity`.  A signature is the symbol of its key:
  an object that verifies under a key was made by the holder of that key.
*/
module Identity {
  import opened Wrappers

  type KeyId = Id

  datatype Signed<T> = Cose(signer: KeyId, payload: T) | Malformed

  datatype TrustedKey = TrustedKey(issuer: string, revoked: bool, notBefore: int, notAfter: int)

  type TrustStore = map<KeyId, TrustedKey>

  datatype IdentityError = BadEnvelope | UnknownKeyId | WrongIssuer | KeyRevoked | KeyNotYetValid | KeyExpired

  function VerifySignature<T>(trust: TrustStore, signed: Signed<T>, issuer: string, now: int): (r: Result<T, IdentityError>)
    ensures r.Ok? <==> signed.Cose? && KeyAccepted(trust, signed.signer, issuer, now)
    ensures r.Ok? ==> r.value == signed.payload
  {
    if signed.Malformed? then Err(BadEnvelope)
    else if signed.signer !in trust then Err(UnknownKeyId)
    else
      var key := trust[signed.signer];
      if key.issuer != issuer then Err(WrongIssuer)
      else if key.revoked then Err(KeyRevoked)
      else if now < key.notBefore then Err(KeyNotYetValid)
      else if now >= key.notAfter then Err(KeyExpired)
      else Ok(signed.payload)
  }

  /** A signature is accepted exactly under a listed key of the issuer that is not revoked, from its start to before its end. */
  lemma AcceptsExactly<T>(trust: TrustStore, signed: Signed<T>, issuer: string, now: int)
    ensures VerifySignature(trust, signed, issuer, now).Ok?
      <==> (&& signed.Cose? && signed.signer in trust
            && var key := trust[signed.signer];
               key.issuer == issuer && !key.revoked && key.notBefore <= now < key.notAfter)
  {
  }

  /** Every refusal names what is wrong with the envelope or its key. */
  lemma SignatureRefusalsAreTrue<T>(trust: TrustStore, signed: Signed<T>, issuer: string, now: int)
    requires VerifySignature(trust, signed, issuer, now).Err?
    ensures match VerifySignature(trust, signed, issuer, now).error
      case BadEnvelope => signed.Malformed?
      case UnknownKeyId => signed.Cose? && signed.signer !in trust
      case WrongIssuer => signed.Cose? && signed.signer in trust && trust[signed.signer].issuer != issuer
      case KeyRevoked => signed.Cose? && signed.signer in trust && trust[signed.signer].revoked
      case KeyNotYetValid => signed.Cose? && signed.signer in trust && now < trust[signed.signer].notBefore
      case KeyExpired => signed.Cose? && signed.signer in trust && trust[signed.signer].notAfter <= now
  {
  }

  predicate KeyAccepted(trust: TrustStore, key: KeyId, issuer: string, now: int) {
    key in trust && trust[key].issuer == issuer && !trust[key].revoked && trust[key].notBefore <= now < trust[key].notAfter
  }
}
