/**
 * ios/ResponseHandler.swift: the four static translators from a native credential to the
 * JSON result record, and the class that settles the caller's promise with a result or an
 * error. Binary fields are encoded with `Base64Url.Encode` (the model of
 * `toBase64URLEncodedString()`), so each translator's contract can state that every text
 * field decodes back to the native bytes it came from.
 */
module IosResponseHandler {
  import opened Wrappers
  import opened Binary
  import opened Seqs
  import opened IosPasskeyTypes
  import opened AuthenticationServices
  import Base64Url
  import Utf8

  /** `text` is the base64url encoding of `bytes`: decoding it gives them back. */
  predicate Carries(text: string, bytes: Bytes)
  {
    Base64Url.Decode(text) == Some(bytes)
  }

  /** `bytes.toBase64URLEncodedString()`. */
  function Encoded(bytes: Bytes): (text: string)
    ensures Carries(text, bytes)
  {
    Base64Url.DecodeEncode(bytes);
    Base64Url.Encode(bytes)
  }

  /** What both registration translators throw when the credential has no attestation object. */
  const InvalidAttestationObject := RNPasskeyError(RequestFailed, Some("Invalid attestation object"))

  /** The identifier and binary fields of a registration result carry the credential's bytes, with `id` equal to `rawId`. */
  predicate RegistrationCarries(c: CreateResponseJSON, credentialID: Bytes, clientData: Bytes, attestation: Bytes)
  {
    && c.id == c.rawId
    && Carries(c.id, credentialID)
    && Carries(c.response.clientDataJSON, clientData)
    && Carries(c.response.attestationObject, attestation)
  }

  /** The identifier and binary fields of an assertion result carry the credential's bytes, with `id` equal to `rawId`. */
  predicate AssertionCarries(g: SignResponseJSON, credentialID: Bytes, authenticatorData: Bytes, clientData: Bytes, signature: Bytes)
  {
    && g.id == g.rawId
    && Carries(g.id, credentialID)
    && Carries(g.response.authenticatorData, authenticatorData)
    && Carries(g.response.clientDataJSON, clientData)
    && Carries(g.response.signature, signature)
  }

  /** `handlePlatformPublicKeyRegistrationResponse`. */
  function HandlePlatformPublicKeyRegistrationResponse(
    credential: PlatformRegistrationCredential, availability: Availability): (r: Result<PublicKeyCredentialJSON, RNPasskeyError>)
    ensures r.Failure? <==> credential.rawAttestationObject.None?
    ensures r.Failure? ==> r.error == InvalidAttestationObject
    ensures r.Success? ==> (
      && r.value.Create?
      && RegistrationCarries(r.value.create, credential.credentialID, credential.rawClientDataJSON, credential.rawAttestationObject.value)
      && r.value.create.credentialType == Some("public-key")
      && r.value.create.response.transports.None?)
    ensures r.Success? ==>
      (r.value.create.clientExtensionResults.Some? <==> availability.iOS17 && credential.largeBlob.Some?)
    ensures r.Success? && r.value.create.clientExtensionResults.Some? ==>
      r.value.create.clientExtensionResults.value.largeBlob == Some(LargeBlobOutputs(Some(credential.largeBlob.value.isSupported), None, None))
  {
    match credential.rawAttestationObject
    case None => Failure(InvalidAttestationObject)
    case Some(attestation) =>
      var response := AttestationResponseJSON(Encoded(credential.rawClientDataJSON), None, Encoded(attestation));
      var clientExtensionResults :=
        if availability.iOS17 && credential.largeBlob.Some? then
          Some(ClientExtensionOutputs(Some(LargeBlobOutputs(Some(credential.largeBlob.value.isSupported), None, None))))
        else None;
      var id := Encoded(credential.credentialID);
      Success(Create(CreateResponseJSON(id, Encoded(credential.credentialID), Some("public-key"), response, clientExtensionResults)))
  }

  /** The transports of a list of raw values: Swift's `compactMap` of the raw-value initializer. */
  function TransportsOf(raw: seq<string>): seq<AuthenticatorTransport>
  {
    FilterMap(TransportFromRawValue, raw)
  }

  /**
   * The transports a security-key registration reports: the recognised raw values of the
   * descriptor's transports, in order, when iOS 17.5 is available and the cast succeeds; else none.
   */
  function RegistrationTransports(credential: SecurityKeyRegistrationCredential, availability: Availability): (t: seq<AuthenticatorTransport>)
    ensures !availability.iOS17_5 || credential.descriptorTransports.None? ==> t == []
    ensures credential.descriptorTransports.Some? ==> |t| <= |credential.descriptorTransports.value|
    ensures forall k :: 0 <= k < |t| ==>
      credential.descriptorTransports.Some? && TransportRawValue(t[k]) in credential.descriptorTransports.value
    ensures availability.iOS17_5 && credential.descriptorTransports.Some? ==>
      forall raw :: raw in credential.descriptorTransports.value && TransportFromRawValue(raw).Some? ==>
        TransportFromRawValue(raw).value in t
  {
    if availability.iOS17_5 && credential.descriptorTransports.Some? then
      TransportsOf(credential.descriptorTransports.value)
    else []
  }

  /** With iOS 17.5 and a successful cast, the transports are those of the raw list, whatever else the credential holds. */
  lemma RegistrationTransportsOfList(credential: SecurityKeyRegistrationCredential, availability: Availability)
    requires availability.iOS17_5 && credential.descriptorTransports.Some?
    ensures RegistrationTransports(credential, availability) == TransportsOf(credential.descriptorTransports.value)
  {
  }

  /** One raw value gives its transport when it is recognised and nothing otherwise. */
  lemma TransportsOfOne(raw: string)
    ensures TransportsOf([raw]) == if TransportFromRawValue(raw).Some? then [TransportFromRawValue(raw).value] else []
  {
    FilterMapOne(TransportFromRawValue, raw);
  }

  /** The transports of `a + b` are those of `a` followed by those of `b`: order and repeats are kept. */
  lemma TransportsOfAppend(a: seq<string>, b: seq<string>)
    ensures TransportsOf(a + b) == TransportsOf(a) + TransportsOf(b)
  {
    FilterMapAppend(TransportFromRawValue, a, b);
  }

  /** `["usb", "xx", "usb"]` reports `[Usb, Usb]`: the unknown value is dropped, the repeat kept. */
  lemma TransportsExample()
    ensures TransportsOf(["usb", "xx", "usb"]) == [Usb, Usb]
    ensures TransportsOf(["usb", "nfc"]) == [Usb, Nfc]
  {
    TransportsOfOne("usb");
    TransportsOfOne("xx");
    TransportsOfOne("nfc");
    assert ["usb", "xx", "usb"] == ["usb"] + ["xx"] + ["usb"];
    TransportsOfAppend(["usb"] + ["xx"], ["usb"]);
    TransportsOfAppend(["usb"], ["xx"]);
    assert ["usb", "nfc"] == ["usb"] + ["nfc"];
    TransportsOfAppend(["usb"], ["nfc"]);
  }

  /** `handleSecurityKeyPublicKeyRegistrationResponse`. */
  function HandleSecurityKeyPublicKeyRegistrationResponse(
    credential: SecurityKeyRegistrationCredential, availability: Availability): (r: Result<PublicKeyCredentialJSON, RNPasskeyError>)
    ensures r.Failure? <==> credential.rawAttestationObject.None?
    ensures r.Failure? ==> r.error == InvalidAttestationObject
    ensures r.Success? ==> (
      && r.value.Create?
      && RegistrationCarries(r.value.create, credential.credentialID, credential.rawClientDataJSON, credential.rawAttestationObject.value)
      && r.value.create.credentialType.None?
      && r.value.create.response.transports == Some(RegistrationTransports(credential, availability))
      && r.value.create.clientExtensionResults.None?)
  {
    match credential.rawAttestationObject
    case None => Failure(InvalidAttestationObject)
    case Some(attestation) =>
      var transports := RegistrationTransports(credential, availability);
      var response := AttestationResponseJSON(Encoded(credential.rawClientDataJSON), Some(transports), Encoded(attestation));
      Success(Create(CreateResponseJSON(Encoded(credential.credentialID), Encoded(credential.credentialID), None, response, None)))
  }

  /** The user handle of an assertion: the UTF-8 text of `userID`, absent when there is none or it is not UTF-8. */
  function UserHandle(userID: Option<Bytes>): (r: Option<string>)
    ensures r.Some? <==> userID.Some? && Utf8.Decode(userID.value).Some?
    ensures r.Some? ==> Utf8.Encode(r.value) == userID.value
  {
    match userID
    case None => None
    case Some(bytes) =>
      match Utf8.Decode(bytes)
      case None => None
      case Some(text) =>
        Utf8.EncodeDecode(bytes);
        Some(text)
  }

  /** The large-blob outputs of a platform assertion: `blob` for a read that returned data, `written` for a write. */
  function AssertionLargeBlob(largeBlob: Option<LargeBlobAssertionOutput>, availability: Availability): (lb: LargeBlobOutputs)
    ensures lb.supported.None?
    ensures !(lb.blob.Some? && lb.written.Some?)
    ensures lb.blob.Some? <==>
      availability.iOS17 && largeBlob.Some? && largeBlob.value.result.Read? && largeBlob.value.result.data.Some?
    ensures lb.blob.Some? ==> lb.blob.value == largeBlob.value.result.data.value
    ensures lb.written.Some? <==> availability.iOS17 && largeBlob.Some? && largeBlob.value.result.Write?
    ensures lb.written.Some? ==> lb.written.value == largeBlob.value.result.success
  {
    var empty := LargeBlobOutputs(None, None, None);
    if availability.iOS17 && largeBlob.Some? then
      match largeBlob.value.result
      case Read(data) => if data.Some? then empty.(blob := data) else empty
      case Write(success) => empty.(written := Some(success))
      case UnknownResult => empty
    else empty
  }

  /** `handlePlatformPublicKeyAssertionResponse`: never fails, and always reports a large-blob extension object. */
  function HandlePlatformPublicKeyAssertionResponse(
    credential: PlatformAssertionCredential, availability: Availability): (r: PublicKeyCredentialJSON)
    ensures r.Get?
    ensures AssertionCarries(r.get, credential.credentialID, credential.rawAuthenticatorData, credential.rawClientDataJSON, credential.signature)
    ensures r.get.response.userHandle == UserHandle(credential.userID)
    ensures r.get.clientExtensionResults == Some(ClientExtensionOutputs(Some(AssertionLargeBlob(credential.largeBlob, availability))))
  {
    var clientExtensionResults := ClientExtensionOutputs(Some(AssertionLargeBlob(credential.largeBlob, availability)));
    var response := AssertionResponseJSON(
      Encoded(credential.rawAuthenticatorData), Encoded(credential.rawClientDataJSON),
      Encoded(credential.signature), UserHandle(credential.userID));
    Get(SignResponseJSON(Encoded(credential.credentialID), Encoded(credential.credentialID), response, Some(clientExtensionResults)))
  }

  /** `handleSecurityKeyPublicKeyAssertionResponse`: never fails, and reports no extension outputs. */
  function HandleSecurityKeyPublicKeyAssertionResponse(credential: SecurityKeyAssertionCredential): (r: PublicKeyCredentialJSON)
    ensures r.Get?
    ensures AssertionCarries(r.get, credential.credentialID, credential.rawAuthenticatorData, credential.rawClientDataJSON, credential.signature)
    ensures r.get.response.userHandle == UserHandle(credential.userID)
    ensures r.get.clientExtensionResults.None?
  {
    var response := AssertionResponseJSON(
      Encoded(credential.rawAuthenticatorData), Encoded(credential.rawClientDataJSON),
      Encoded(credential.signature), UserHandle(credential.userID));
    Get(SignResponseJSON(Encoded(credential.credentialID), Encoded(credential.credentialID), response, None))
  }

  /** The promise call `onError(error)` makes. */
  function ErrorSettlement(error: SwiftError): (s: Settlement)
    ensures s.Rejected?
    ensures error.PasskeyError? ==>
      s == Rejected(RawValueOf(error.passkeyError.errorType), MessageOf(error.passkeyError), None)
    ensures error.OtherError? ==>
      s == Rejected(RawValueOf(Unknown), Text(error.localizedDescription), Some(error))
  {
    match error
    case PasskeyError(passkeyError) => Rejected(RawValueOf(passkeyError.errorType), MessageOf(passkeyError), None)
    case OtherError(description) => Rejected(RawValueOf(Unknown), Text(description), Some(error))
  }

  /** The promise call `onSuccess(data)` makes; `encodingFailure` is the description of a failure to encode `data`, if any. */
  function SuccessSettlement(data: PublicKeyCredentialJSON, encodingFailure: Option<string>): (s: Settlement)
    ensures s.Resolved? <==> encodingFailure.None?
    ensures s.Resolved? ==> s.value == data
    ensures encodingFailure.Some? ==> s == Rejected(RawValueOf(Unknown), Text(encodingFailure.value), None)
  {
    match encodingFailure
    case None => Resolved(data)
    case Some(description) => ErrorSettlement(PasskeyError(RNPasskeyError(Unknown, Some(description))))
  }

  /** The handler that settles one caller's promise. */
  class ResponseHandler {
    const promise: Promise

    constructor (promise: Promise)
      ensures this.promise == promise
    {
      this.promise := promise;
    }

    method OnSuccess(data: PublicKeyCredentialJSON, encodingFailure: Option<string>)
      modifies promise
      ensures promise.settlements == old(promise.settlements) + [SuccessSettlement(data, encodingFailure)]
    {
      match encodingFailure
      case None =>
        promise.Resolve(data);
      case Some(description) =>
        OnError(PasskeyError(RNPasskeyError(Unknown, Some(description))));
    }

    method OnError(error: SwiftError)
      modifies promise
      ensures promise.settlements == old(promise.settlements) + [ErrorSettlement(error)]
    {
      match error
      case PasskeyError(passkeyError) =>
        promise.Reject(RawValueOf(passkeyError.errorType), MessageOf(passkeyError), None);
      case OtherError(description) =>
        promise.Reject(RawValueOf(Unknown), Text(description), Some(error));
    }
  }
}
