/**
 * ios/PasskeyManager.swift: the four request builders and the two entry points that decode
 * a request, check its challenge, pick the platform or the security-key builder and start
 * the ceremony. The builders only construct a request value; `PrepareCreate` and
 * `PrepareSign` are the validation steps of the entry points, and `CreateKey` and
 * `SignWithKey` drive the promise, the controller and the responder.
 */
module IosPasskeyManager {
  import opened Wrappers
  import opened Binary
  import opened Seqs
  import opened IosPasskeyTypes
  import opened AuthenticationServices
  import opened IosAuthResponder
  import Base64Url
  import Utf8

  /** `rp.id ?? rp.name`. */
  function RelyingPartyIdentifier(rp: RelyingParty): string
  {
    if rp.id.Some? then rp.id.value else rp.name
  }

  /** `preference?.appleise() ?? .preferred`. */
  function OrPreferred(preference: Option<Preference>): Preference
  {
    if preference.Some? then preference.value else Preferred
  }

  /** `param.appleise()`. */
  function Appleise(param: PubKeyCredParam): CredentialParameters
  {
    Appleised(param)
  }

  /** `descriptor.getPlatformDescriptor()`. */
  function GetPlatformDescriptor(descriptor: CredentialDescriptor): NativeDescriptor
  {
    PlatformDescriptorOf(descriptor)
  }

  /** `descriptor.getCrossPlatformDescriptor()`. */
  function GetCrossPlatformDescriptor(descriptor: CredentialDescriptor): NativeDescriptor
  {
    CrossPlatformDescriptorOf(descriptor)
  }

  /** `configureCreatePlatformRequest`: only the user-verification preference is configured. */
  function ConfigureCreatePlatformRequest(challenge: Bytes, userID: Bytes, request: CreationOptions): (r: RegistrationRequest)
    ensures r.provider == PlatformProvider
    ensures request.rp.id.Some? ==> r.relyingPartyIdentifier == request.rp.id.value
    ensures request.rp.id.None? ==> r.relyingPartyIdentifier == request.rp.name
    ensures r.challenge == challenge && r.userID == userID && r.name == request.user.name
    ensures r.userVerificationPreference.Some? <==> request.authenticatorSelection.Some?
    ensures r.userVerificationPreference.Some? ==>
      r.userVerificationPreference.value == OrPreferred(request.authenticatorSelection.value.userVerification)
    ensures r.displayName.None? && r.credentialParameters.None? && r.residentKeyPreference.None?
    ensures r.attestationPreference.None? && r.largeBlobRegistrationInput.None?
  {
    var userVerification :=
      if request.authenticatorSelection.Some? then Some(OrPreferred(request.authenticatorSelection.value.userVerification)) else None;
    RegistrationRequest(PlatformProvider, RelyingPartyIdentifier(request.rp), challenge, None, request.user.name, userID,
                        userVerification, None, None, None, None)
  }

  /** `configureCreateSecurityKeyRequest`. */
  function ConfigureCreateSecurityKeyRequest(challenge: Bytes, userID: Bytes, request: CreationOptions, availability: Availability): (r: RegistrationRequest)
    ensures r.provider == SecurityKeyProvider
    ensures request.rp.id.Some? ==> r.relyingPartyIdentifier == request.rp.id.value
    ensures request.rp.id.None? ==> r.relyingPartyIdentifier == request.rp.name
    ensures r.challenge == challenge && r.userID == userID && r.name == request.user.name
    ensures r.displayName == Some(request.user.displayName)
    ensures r.credentialParameters.Some? && |r.credentialParameters.value| == |request.pubKeyCredParams|
    ensures forall i :: 0 <= i < |request.pubKeyCredParams| ==>
      r.credentialParameters.value[i] == Appleised(request.pubKeyCredParams[i])
    ensures r.userVerificationPreference.Some? <==> request.authenticatorSelection.Some?
    ensures r.userVerificationPreference.Some? ==>
      r.userVerificationPreference.value == OrPreferred(request.authenticatorSelection.value.userVerification)
    ensures r.residentKeyPreference.Some? <==> request.authenticatorSelection.Some?
    ensures r.residentKeyPreference.Some? ==>
      r.residentKeyPreference.value == OrPreferred(request.authenticatorSelection.value.residentKey)
    ensures r.attestationPreference == request.attestation
    ensures r.largeBlobRegistrationInput.Some? <==>
      availability.iOS17 && request.extensions.Some? && request.extensions.value.largeBlob.Some?
      && request.extensions.value.largeBlob.value.support.Some?
    ensures r.largeBlobRegistrationInput.Some? ==>
      r.largeBlobRegistrationInput.value == request.extensions.value.largeBlob.value.support.value
  {
    var selection := request.authenticatorSelection;
    var userVerification := if selection.Some? then Some(OrPreferred(selection.value.userVerification)) else None;
    var residentKey := if selection.Some? then Some(OrPreferred(selection.value.residentKey)) else None;
    var largeBlob :=
      if availability.iOS17 && request.extensions.Some? && request.extensions.value.largeBlob.Some?
      then request.extensions.value.largeBlob.value.support
      else None;
    RegistrationRequest(SecurityKeyProvider, RelyingPartyIdentifier(request.rp), challenge, Some(request.user.displayName),
                        request.user.name, userID, userVerification, Some(Map(Appleise, request.pubKeyCredParams)),
                        residentKey, request.attestation, largeBlob)
  }

  /** `configureGetPlatformRequest`: allowed credentials become platform descriptors; no large-blob input. */
  function ConfigureGetPlatformRequest(challenge: Bytes, request: RequestOptions): (r: AssertionRequest)
    ensures r.provider == PlatformProvider && r.relyingPartyIdentifier == request.rpId && r.challenge == challenge
    ensures r.allowedCredentials.Some? <==> request.allowCredentials.Some?
    ensures r.allowedCredentials.Some? ==>
      && |r.allowedCredentials.value| == |request.allowCredentials.value|
      && forall i :: 0 <= i < |request.allowCredentials.value| ==>
           r.allowedCredentials.value[i] == PlatformDescriptorOf(request.allowCredentials.value[i])
    ensures r.userVerificationPreference == request.userVerification
    ensures r.largeBlobRead.None? && r.largeBlobWrite.None?
  {
    var allowed := if request.allowCredentials.Some? then Some(Map(GetPlatformDescriptor, request.allowCredentials.value)) else None;
    AssertionRequest(PlatformProvider, request.rpId, challenge, allowed, request.userVerification, None, None)
  }

  /** The large-blob assertion input of a request, when iOS 17 is available. */
  function LargeBlobInput(request: RequestOptions, availability: Availability): Option<LargeBlobAssertionInput>
  {
    if availability.iOS17 && request.extensions.Some? then request.extensions.value.largeBlob else None
  }

  /** `configureGetSecurityKeyRequest`: allowed credentials become cross-platform descriptors; large-blob read and write are each passed on independently. */
  function ConfigureGetSecurityKeyRequest(challenge: Bytes, request: RequestOptions, availability: Availability): (r: AssertionRequest)
    ensures r.provider == SecurityKeyProvider && r.relyingPartyIdentifier == request.rpId && r.challenge == challenge
    ensures r.allowedCredentials.Some? <==> request.allowCredentials.Some?
    ensures r.allowedCredentials.Some? ==>
      && |r.allowedCredentials.value| == |request.allowCredentials.value|
      && forall i :: 0 <= i < |request.allowCredentials.value| ==>
           r.allowedCredentials.value[i] == CrossPlatformDescriptorOf(request.allowCredentials.value[i])
    ensures r.userVerificationPreference == request.userVerification
    ensures r.largeBlobRead.Some? <==>
      availability.iOS17 && request.extensions.Some? && request.extensions.value.largeBlob.Some?
      && request.extensions.value.largeBlob.value.read.Some?
    ensures r.largeBlobWrite.Some? <==>
      availability.iOS17 && request.extensions.Some? && request.extensions.value.largeBlob.Some?
      && request.extensions.value.largeBlob.value.write.Some?
    ensures r.largeBlobRead.Some? ==> r.largeBlobRead == request.extensions.value.largeBlob.value.read
    ensures r.largeBlobWrite.Some? ==> r.largeBlobWrite == request.extensions.value.largeBlob.value.write
  {
    var allowed := if request.allowCredentials.Some? then Some(Map(GetCrossPlatformDescriptor, request.allowCredentials.value)) else None;
    var largeBlob := LargeBlobInput(request, availability);
    AssertionRequest(SecurityKeyProvider, request.rpId, challenge, allowed, request.userVerification,
                     if largeBlob.Some? then largeBlob.value.read else None,
                     if largeBlob.Some? then largeBlob.value.write else None)
  }

  /** The error thrown for a challenge that is not base64url. */
  const InvalidChallengeError := PasskeyError(RNPasskeyError(InvalidChallenge, None))

  /**
   * The body of `createKey` up to the controller: `options` is the outcome of decoding the
   * request text (a failure carries the decoder's description). The challenge is decoded and
   * the user id taken as its UTF-8 bytes, which cannot fail, so `invalidUser` is never raised.
   */
  function PrepareCreate(options: Result<CreationOptions, string>, useSecurityKey: bool, availability: Availability): (r: Result<RegistrationRequest, SwiftError>)
    ensures options.Failure? ==> r == Failure(OtherError(options.error))
    ensures options.Success? ==> (r.Failure? <==> Base64Url.Decode(options.value.challenge).None?)
    ensures options.Success? && r.Failure? ==> r.error == InvalidChallengeError
    ensures r.Failure? ==> r.error != PasskeyError(RNPasskeyError(InvalidUser, None))
    ensures r.Success? ==> (
      && options.Success?
      && Base64Url.Encode(r.value.challenge) == options.value.challenge
      && Utf8.Decode(r.value.userID) == Some(options.value.user.id))
    ensures r.Success? && useSecurityKey ==>
      r.value == ConfigureCreateSecurityKeyRequest(r.value.challenge, r.value.userID, options.value, availability)
    ensures r.Success? && !useSecurityKey ==>
      r.value == ConfigureCreatePlatformRequest(r.value.challenge, r.value.userID, options.value)
  {
    match options
    case Failure(description) => Failure(OtherError(description))
    case Success(request) =>
      match Base64Url.Decode(request.challenge)
      case None => Failure(InvalidChallengeError)
      case Some(challenge) =>
        Base64Url.EncodeDecode(request.challenge);
        var userID := Utf8.Encode(request.user.id);
        Utf8.DecodeEncode(request.user.id);
        if useSecurityKey then Success(ConfigureCreateSecurityKeyRequest(challenge, userID, request, availability))
        else Success(ConfigureCreatePlatformRequest(challenge, userID, request))
  }

  /** The body of `signWithKey` up to the controller. */
  function PrepareSign(options: Result<RequestOptions, string>, useSecurityKey: bool, availability: Availability): (r: Result<AssertionRequest, SwiftError>)
    ensures options.Failure? ==> r == Failure(OtherError(options.error))
    ensures options.Success? ==> (r.Failure? <==> Base64Url.Decode(options.value.challenge).None?)
    ensures options.Success? && r.Failure? ==> r.error == InvalidChallengeError
    ensures r.Success? ==> options.Success? && Base64Url.Encode(r.value.challenge) == options.value.challenge
    ensures r.Success? && useSecurityKey ==>
      r.value == ConfigureGetSecurityKeyRequest(r.value.challenge, options.value, availability)
    ensures r.Success? && !useSecurityKey ==>
      r.value == ConfigureGetPlatformRequest(r.value.challenge, options.value)
  {
    match options
    case Failure(description) => Failure(OtherError(description))
    case Success(request) =>
      match Base64Url.Decode(request.challenge)
      case None => Failure(InvalidChallengeError)
      case Some(challenge) =>
        Base64Url.EncodeDecode(request.challenge);
        if useSecurityKey then Success(ConfigureGetSecurityKeyRequest(challenge, request, availability))
        else Success(ConfigureGetPlatformRequest(challenge, request))
  }

  /** The rejection of the `catch` block of both entry points. */
  function PreparationRejection(error: SwiftError): (s: Settlement)
    ensures s.Rejected? && s.code == Literal("ERROR")
    ensures s.message == LocalizedDescription(error) && s.error == Some(error)
  {
    Rejected(Literal("ERROR"), LocalizedDescription(error), Some(error))
  }

  /**
   * `createKey`. The controller and responder it creates are returned so that a caller can
   * follow the ceremony; both are null when preparation failed, in which case the promise has
   * been rejected with code "ERROR" and nothing was started.
   */
  method CreateKey(options: Result<CreationOptions, string>, useSecurityKey: bool, availability: Availability,
                   promise: Promise, pending: PendingRequests)
      returns (controller: AuthorizationController?, responder: AuthResponder?)
    modifies promise, pending
    ensures PrepareCreate(options, useSecurityKey, availability).Failure? ==>
      && controller == null && responder == null
      && pending.members == old(pending.members)
      && promise.settlements == old(promise.settlements) + [PreparationRejection(PrepareCreate(options, useSecurityKey, availability).error)]
    ensures PrepareCreate(options, useSecurityKey, availability).Success? ==>
      && controller != null && responder != null && fresh(controller) && fresh(responder)
      && controller.authorizationRequests == [Registration(PrepareCreate(options, useSecurityKey, availability).value)]
      && controller.delegate == responder && responder.handler.promise == promise
      && pending.members == old(pending.members) + {responder}
      && promise.settlements == old(promise.settlements)
  {
    var prepared := PrepareCreate(options, useSecurityKey, availability);
    match prepared {
      case Failure(error) =>
        promise.Reject(Literal("ERROR"), LocalizedDescription(error), Some(error));
        controller, responder := null, null;
      case Success(request) =>
        controller := new AuthorizationController([Registration(request)]);
        responder := new AuthResponder(promise);
        responder.PerformAuth(controller, pending);
    }
  }

  /** `signWithKey`, in the same shape as `CreateKey`. */
  method SignWithKey(options: Result<RequestOptions, string>, useSecurityKey: bool, availability: Availability,
                     promise: Promise, pending: PendingRequests)
      returns (controller: AuthorizationController?, responder: AuthResponder?)
    modifies promise, pending
    ensures PrepareSign(options, useSecurityKey, availability).Failure? ==>
      && controller == null && responder == null
      && pending.members == old(pending.members)
      && promise.settlements == old(promise.settlements) + [PreparationRejection(PrepareSign(options, useSecurityKey, availability).error)]
    ensures PrepareSign(options, useSecurityKey, availability).Success? ==>
      && controller != null && responder != null && fresh(controller) && fresh(responder)
      && controller.authorizationRequests == [Assertion(PrepareSign(options, useSecurityKey, availability).value)]
      && controller.delegate == responder && responder.handler.promise == promise
      && pending.members == old(pending.members) + {responder}
      && promise.settlements == old(promise.settlements)
  {
    var prepared := PrepareSign(options, useSecurityKey, availability);
    match prepared {
      case Failure(error) =>
        promise.Reject(Literal("ERROR"), LocalizedDescription(error), Some(error));
        controller, responder := null, null;
      case Success(request) =>
        controller := new AuthorizationController([Assertion(request)]);
        responder := new AuthResponder(promise);
        responder.PerformAuth(controller, pending);
    }
  }

  // ---------------------------------------------------------------- properties relating several operations

  /** Both create builders agree on everything the platform builder sets. */
  lemma CreateBuildersAgree(challenge: Bytes, userID: Bytes, request: CreationOptions, availability: Availability)
    ensures var p := ConfigureCreatePlatformRequest(challenge, userID, request);
            var s := ConfigureCreateSecurityKeyRequest(challenge, userID, request, availability);
            p == s.(provider := PlatformProvider, displayName := None, credentialParameters := None,
                    residentKeyPreference := None, attestationPreference := None, largeBlobRegistrationInput := None)
  {
  }

  /** The source of a native descriptor. */
  function DescriptorSource(d: NativeDescriptor): CredentialDescriptor
  {
    d.source
  }

  /** The requested parameter a native credential parameter was built from. */
  function ParamOf(p: CredentialParameters): PubKeyCredParam
  {
    p.param
  }

  /** The allowed credentials of an assertion request give back the request's `allowCredentials`, in order, whichever builder made it. */
  lemma {:induction false} AllowedCredentialsRecoverRequest(challenge: Bytes, request: RequestOptions, useSecurityKey: bool, availability: Availability)
    requires request.allowCredentials.Some?
    ensures var r := if useSecurityKey then ConfigureGetSecurityKeyRequest(challenge, request, availability)
                     else ConfigureGetPlatformRequest(challenge, request);
            r.allowedCredentials.Some? && Map(DescriptorSource, r.allowedCredentials.value) == request.allowCredentials.value
  {
    if useSecurityKey {
      MapLeftInverse(GetCrossPlatformDescriptor, DescriptorSource, request.allowCredentials.value);
    } else {
      MapLeftInverse(GetPlatformDescriptor, DescriptorSource, request.allowCredentials.value);
    }
  }

  /** The credential parameters of a security-key registration give back the requested `pubKeyCredParams`, in order. */
  lemma {:induction false} CredentialParametersRecoverRequest(challenge: Bytes, userID: Bytes, request: CreationOptions, availability: Availability)
    ensures var r := ConfigureCreateSecurityKeyRequest(challenge, userID, request, availability);
            r.credentialParameters.Some? && Map(ParamOf, r.credentialParameters.value) == request.pubKeyCredParams
  {
    MapLeftInverse(Appleise, ParamOf, request.pubKeyCredParams);
  }

  /**
   * The user id a registration is created with comes back as the user handle of a later
   * assertion whose authenticator returns the same bytes.
   */
  lemma UserHandleRoundTrip(options: Result<CreationOptions, string>, useSecurityKey: bool, availability: Availability)
    requires PrepareCreate(options, useSecurityKey, availability).Success?
    ensures IosResponseHandler.UserHandle(Some(PrepareCreate(options, useSecurityKey, availability).value.userID))
            == Some(options.value.user.id)
  {
  }
}
