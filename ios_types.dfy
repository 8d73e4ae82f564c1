/**
 * The records the iOS module decodes requests into and encodes results from (the
 * `RNPasskey…` and `…JSON` Codable types), its error type `RNPasskeyError`, and the Expo
 * `Promise` that a native call settles. Their Swift declarations are not part of this
 * model; the fields are the ones ios/PasskeyManager.swift and ios/ResponseHandler.swift read
 * and write. Fields the translators never touch (timeout, excludeCredentials, …) are omitted.
 */
module IosPasskeyTypes {
  import opened Wrappers
  import opened Binary

  // ---------------------------------------------------------------- request options

  /** A WebAuthn user-verification or resident-key requirement; `appleise()` maps each case to Apple's case of the same name. */
  datatype Preference = Required | Preferred | Discouraged

  /** A WebAuthn attestation conveyance preference, mapped case for case by `appleise()`. */
  datatype AttestationConveyance = AttestationNone | Indirect | Direct | Enterprise

  /** The large-blob `support` value of a registration, mapped case for case by `appleise()`. */
  datatype LargeBlobSupport = SupportRequired | SupportPreferred

  datatype RelyingParty = RelyingParty(id: Option<string>, name: string)

  /** `id` is the user handle as the JSON request carries it. */
  datatype User = User(id: string, name: string, displayName: string)

  datatype PubKeyCredParam = PubKeyCredParam(credentialType: string, alg: int)

  datatype AuthenticatorSelection = AuthenticatorSelection(residentKey: Option<Preference>, userVerification: Option<Preference>)

  datatype LargeBlobRegistrationInput = LargeBlobRegistrationInput(support: Option<LargeBlobSupport>)

  datatype RegistrationExtensions = RegistrationExtensions(largeBlob: Option<LargeBlobRegistrationInput>)

  /** `RNPasskeyCredentialCreationOptions`: the decoded argument of `createKey`. */
  datatype CreationOptions = CreationOptions(
    rp: RelyingParty,
    user: User,
    challenge: string,
    pubKeyCredParams: seq<PubKeyCredParam>,
    authenticatorSelection: Option<AuthenticatorSelection>,
    attestation: Option<AttestationConveyance>,
    extensions: Option<RegistrationExtensions>)

  /** A credential the relying party allows, as the JSON request carries it. */
  datatype CredentialDescriptor = CredentialDescriptor(id: string, credentialType: string, transports: Option<seq<string>>)

  /** The large-blob assertion input; `write` is kept as the JSON text it arrives as. */
  datatype LargeBlobAssertionInput = LargeBlobAssertionInput(read: Option<bool>, write: Option<string>)

  datatype AssertionExtensions = AssertionExtensions(largeBlob: Option<LargeBlobAssertionInput>)

  /** `RNPasskeyCredentialRequestOptions`: the decoded argument of `signWithKey`. */
  datatype RequestOptions = RequestOptions(
    challenge: string,
    rpId: string,
    allowCredentials: Option<seq<CredentialDescriptor>>,
    userVerification: Option<Preference>,
    extensions: Option<AssertionExtensions>)

  // ---------------------------------------------------------------- results

  /** The module's `AuthenticatorTransport` enumeration, with the WebAuthn transport names as raw values. */
  datatype AuthenticatorTransport = Usb | Nfc | Ble | SmartCard | Hybrid | Internal

  function TransportRawValue(t: AuthenticatorTransport): string
  {
    match t
    case Usb => "usb"
    case Nfc => "nfc"
    case Ble => "ble"
    case SmartCard => "smart-card"
    case Hybrid => "hybrid"
    case Internal => "internal"
  }

  /** `AuthenticatorTransport(rawValue:)`: the transport whose raw value is `s`, if any. */
  function TransportFromRawValue(s: string): (r: Option<AuthenticatorTransport>)
    ensures r.Some? ==> TransportRawValue(r.value) == s
  {
    if s == "usb" then Some(Usb)
    else if s == "nfc" then Some(Nfc)
    else if s == "ble" then Some(Ble)
    else if s == "smart-card" then Some(SmartCard)
    else if s == "hybrid" then Some(Hybrid)
    else if s == "internal" then Some(Internal)
    else None
  }

  /** Every transport is recognised from its own raw value. */
  lemma TransportRawValueRoundTrip(t: AuthenticatorTransport)
    ensures TransportFromRawValue(TransportRawValue(t)) == Some(t)
  {
  }

  /** `AuthenticationExtensionsLargeBlobOutputsJSON`. */
  datatype LargeBlobOutputs = LargeBlobOutputs(supported: Option<bool>, blob: Option<Bytes>, written: Option<bool>)

  /** `AuthenticationExtensionsClientOutputsJSON`. */
  datatype ClientExtensionOutputs = ClientExtensionOutputs(largeBlob: Option<LargeBlobOutputs>)

  /** `AuthenticatorAttestationResponseJSON`; `transports` is None where the translator does not pass it. */
  datatype AttestationResponseJSON = AttestationResponseJSON(
    clientDataJSON: string,
    transports: Option<seq<AuthenticatorTransport>>,
    attestationObject: string)

  /** `RNPasskeyCreateResponseJSON`; `credentialType` is None where the translator does not pass `type`. */
  datatype CreateResponseJSON = CreateResponseJSON(
    id: string,
    rawId: string,
    credentialType: Option<string>,
    response: AttestationResponseJSON,
    clientExtensionResults: Option<ClientExtensionOutputs>)

  /** `AuthenticatorAssertionResponseJSON`. */
  datatype AssertionResponseJSON = AssertionResponseJSON(
    authenticatorData: string,
    clientDataJSON: string,
    signature: string,
    userHandle: Option<string>)

  /** `RNPasskeySignResponseJSON`. */
  datatype SignResponseJSON = SignResponseJSON(
    id: string,
    rawId: string,
    response: AssertionResponseJSON,
    clientExtensionResults: Option<ClientExtensionOutputs>)

  /** `PublicKeyCredentialJSON`: `.create(…)` or `.get(…)`. */
  datatype PublicKeyCredentialJSON = Create(create: CreateResponseJSON) | Get(get: SignResponseJSON)

  // ---------------------------------------------------------------- errors and settlement

  /** The cases of `RNPasskeyErrorType` that the core raises. */
  datatype ErrorType = InvalidChallenge | InvalidUser | RequestFailed | Unknown

  /** `RNPasskeyError(type:message:)`; `message` is None when the error is built without one. */
  datatype RNPasskeyError = RNPasskeyError(errorType: ErrorType, message: Option<string>)

  /** A Swift `Error` as the core sees it: an `RNPasskeyError`, or any other error with its localized description. */
  datatype SwiftError = PasskeyError(passkeyError: RNPasskeyError) | OtherError(localizedDescription: string)

  /** The code of a rejection: a literal string, or the raw value of an error type. */
  datatype RejectCode = Literal(text: string) | RawValueOf(errorType: ErrorType)

  /**
   * The message of a rejection: a given text, the default message of an error built without one,
   * or the localized description of an `RNPasskeyError` (their texts are not part of this model).
   */
  datatype Message = Text(text: string) | DefaultMessageOf(errorType: ErrorType) | LocalizedDescriptionOf(error: RNPasskeyError)

  /** The message an `RNPasskeyError` carries. */
  function MessageOf(e: RNPasskeyError): (m: Message)
    ensures e.message.Some? ==> m == Text(e.message.value)
    ensures e.message.None? ==> m == DefaultMessageOf(e.errorType)
  {
    match e.message
    case Some(text) => Text(text)
    case None => DefaultMessageOf(e.errorType)
  }

  /** `error.localizedDescription`. */
  function LocalizedDescription(e: SwiftError): Message
  {
    match e
    case PasskeyError(pe) => LocalizedDescriptionOf(pe)
    case OtherError(description) => Text(description)
  }

  /** One call on a promise: `resolve(value)` or `reject(code, message, error)`. */
  datatype Settlement =
    | Resolved(value: PublicKeyCredentialJSON)
    | Rejected(code: RejectCode, message: Message, error: Option<SwiftError>)

  /** Expo's `Promise`, recorded as the sequence of calls made on it. */
  class Promise {
    var settlements: seq<Settlement>

    constructor ()
      ensures settlements == []
    {
      settlements := [];
    }

    method Resolve(value: PublicKeyCredentialJSON)
      modifies this
      ensures settlements == old(settlements) + [Resolved(value)]
    {
      settlements := settlements + [Resolved(value)];
    }

    method Reject(code: RejectCode, message: Message, error: Option<SwiftError>)
      modifies this
      ensures settlements == old(settlements) + [Rejected(code, message, error)]
    {
      settlements := settlements + [Rejected(code, message, error)];
    }
  }
}
