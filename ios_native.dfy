/**
 * The parts of Apple's AuthenticationServices framework that the iOS module builds and reads:
 * the request descriptors it configures and the credentials a ceremony returns. Only the
 * properties the module sets or reads are modelled; an optional property that is None was
 * left unset, so the framework's default applies.
 */
module AuthenticationServices {
  import opened Wrappers
  import opened Binary
  import opened IosPasskeyTypes

  /** The OS-version checks of the source, `#available(iOS 17.0, *)` and `#available(iOS 17.5, *)`. */
  datatype Availability = Availability(iOS17: bool, iOS17_5: bool)

  /** Which provider a request comes from: the platform authenticator or a security key. */
  datatype Provider = PlatformProvider | SecurityKeyProvider

  /** `param.appleise()`: the native credential parameters built from one requested parameter. */
  datatype CredentialParameters = Appleised(param: PubKeyCredParam)

  /** The native descriptor of an allowed credential, as `getPlatformDescriptor()` or `getCrossPlatformDescriptor()` builds it from `source`. */
  datatype NativeDescriptor =
    | PlatformDescriptorOf(source: CredentialDescriptor)
    | CrossPlatformDescriptorOf(source: CredentialDescriptor)

  /** A registration request, platform or security-key. `displayName` is passed to the security-key provider only. */
  datatype RegistrationRequest = RegistrationRequest(
    provider: Provider,
    relyingPartyIdentifier: string,
    challenge: Bytes,
    displayName: Option<string>,
    name: string,
    userID: Bytes,
    userVerificationPreference: Option<Preference>,
    credentialParameters: Option<seq<CredentialParameters>>,
    residentKeyPreference: Option<Preference>,
    attestationPreference: Option<AttestationConveyance>,
    largeBlobRegistrationInput: Option<LargeBlobSupport>)

  /** An assertion request, platform or security-key. */
  datatype AssertionRequest = AssertionRequest(
    provider: Provider,
    relyingPartyIdentifier: string,
    challenge: Bytes,
    allowedCredentials: Option<seq<NativeDescriptor>>,
    userVerificationPreference: Option<Preference>,
    largeBlobRead: Option<bool>,
    largeBlobWrite: Option<string>)

  /** `ASAuthorizationRequest`: what an authorization controller is created with. */
  datatype AuthorizationRequest = Registration(registration: RegistrationRequest) | Assertion(assertion: AssertionRequest)

  // ---------------------------------------------------------------- credentials

  datatype LargeBlobRegistrationOutput = LargeBlobRegistrationOutput(isSupported: bool)

  /** `ASAuthorizationPlatformPublicKeyCredentialRegistration`. */
  datatype PlatformRegistrationCredential = PlatformRegistrationCredential(
    credentialID: Bytes,
    rawClientDataJSON: Bytes,
    rawAttestationObject: Option<Bytes>,
    largeBlob: Option<LargeBlobRegistrationOutput>)

  /**
   * `ASAuthorizationSecurityKeyPublicKeyCredentialRegistration`. `descriptorTransports` is
   * Some(the raw values of `transports`) when the credential also casts to
   * `ASAuthorizationSecurityKeyPublicKeyCredentialDescriptor`, and None when that cast fails.
   */
  datatype SecurityKeyRegistrationCredential = SecurityKeyRegistrationCredential(
    credentialID: Bytes,
    rawClientDataJSON: Bytes,
    rawAttestationObject: Option<Bytes>,
    descriptorTransports: Option<seq<string>>)

  /** The result of a large-blob operation during an assertion; `UnknownResult` is a case added to the enumeration later. */
  datatype LargeBlobResult = Read(data: Option<Bytes>) | Write(success: bool) | UnknownResult

  datatype LargeBlobAssertionOutput = LargeBlobAssertionOutput(result: LargeBlobResult)

  /** `ASAuthorizationPlatformPublicKeyCredentialAssertion`. */
  datatype PlatformAssertionCredential = PlatformAssertionCredential(
    credentialID: Bytes,
    rawAuthenticatorData: Bytes,
    rawClientDataJSON: Bytes,
    signature: Bytes,
    userID: Option<Bytes>,
    largeBlob: Option<LargeBlobAssertionOutput>)

  /** `ASAuthorizationSecurityKeyPublicKeyCredentialAssertion`. */
  datatype SecurityKeyAssertionCredential = SecurityKeyAssertionCredential(
    credentialID: Bytes,
    rawAuthenticatorData: Bytes,
    rawClientDataJSON: Bytes,
    signature: Bytes,
    userID: Option<Bytes>)

  /** `authorization.credential`: one of the four kinds the module handles, or any other credential. */
  datatype AuthorizationCredential =
    | PlatformRegistration(platformRegistration: PlatformRegistrationCredential)
    | SecurityKeyRegistration(securityKeyRegistration: SecurityKeyRegistrationCredential)
    | PlatformAssertion(platformAssertion: PlatformAssertionCredential)
    | SecurityKeyAssertion(securityKeyAssertion: SecurityKeyAssertionCredential)
    | OtherCredential

  /** An error the framework reports to the delegate: its `ASAuthorizationError` code and localized description. */
  datatype NativeError = NativeError(code: int, localizedDescription: string)

  /** `ASAuthorizationError.canceled`: the user dismissed the system sheet. */
  const CanceledCode := 1001
}
