/**
 * ios/AuthResponder.swift: the delegate of one authorization ceremony. It is kept alive in
 * the module-level `pendingRequests` set from `performAuth` until the system delivers one of
 * the two terminal callbacks, each of which settles the caller's promise exactly once and
 * removes the responder again. `ASAuthorizationController` is modelled here too, as the
 * object the responder installs itself on.
 */
module IosAuthResponder {
  import opened Wrappers
  import opened Binary
  import opened IosPasskeyTypes
  import opened AuthenticationServices
  import opened IosResponseHandler

  /** The module-level `pendingRequests`: the responders whose ceremony has started and not yet ended. */
  class PendingRequests {
    var members: set<AuthResponder>

    constructor ()
      ensures members == {}
    {
      members := {};
    }
  }

  /** `ASAuthorizationController`: the requests it was created with, its delegate and its presentation context provider. */
  class AuthorizationController {
    const authorizationRequests: seq<AuthorizationRequest>
    var delegate: AuthResponder?
    var presentationContextProvider: AuthResponder?

    constructor (authorizationRequests: seq<AuthorizationRequest>)
      ensures this.authorizationRequests == authorizationRequests
      ensures delegate == null && presentationContextProvider == null
    {
      this.authorizationRequests := authorizationRequests;
      delegate := null;
      presentationContextProvider := null;
    }
  }

  /** The error thrown for a credential of none of the four expected kinds. */
  const UnexpectedCredentialType := RNPasskeyError(RequestFailed, Some("Unexpected credential type"))

  /** The credential identifier a native credential carries, if it is of one of the four expected kinds. */
  function CredentialID(credential: AuthorizationCredential): Option<Bytes>
  {
    match credential
    case PlatformRegistration(c) => Some(c.credentialID)
    case SecurityKeyRegistration(c) => Some(c.credentialID)
    case PlatformAssertion(c) => Some(c.credentialID)
    case SecurityKeyAssertion(c) => Some(c.credentialID)
    case OtherCredential => None
  }

  /** The `id` field of a result record. */
  function ResultID(json: PublicKeyCredentialJSON): string
  {
    match json
    case Create(c) => c.id
    case Get(g) => g.id
  }

  /** The dispatch on `authorization.credential` in the success callback. */
  function HandleAuthorization(credential: AuthorizationCredential, availability: Availability): (r: Result<PublicKeyCredentialJSON, RNPasskeyError>)
    ensures credential.PlatformRegistration? ==>
      r == HandlePlatformPublicKeyRegistrationResponse(credential.platformRegistration, availability)
    ensures credential.SecurityKeyRegistration? ==>
      r == HandleSecurityKeyPublicKeyRegistrationResponse(credential.securityKeyRegistration, availability)
    ensures credential.PlatformAssertion? ==>
      r == Success(HandlePlatformPublicKeyAssertionResponse(credential.platformAssertion, availability))
    ensures credential.SecurityKeyAssertion? ==>
      r == Success(HandleSecurityKeyPublicKeyAssertionResponse(credential.securityKeyAssertion))
    ensures credential.OtherCredential? ==> r == Failure(UnexpectedCredentialType)
    // what the dispatch means: the result's kind follows the credential's kind, the identifier
    // is carried over, and every failure is a `requestFailed`
    ensures r.Success? ==>
      && (r.value.Create? <==> credential.PlatformRegistration? || credential.SecurityKeyRegistration?)
      && CredentialID(credential).Some?
      && Carries(ResultID(r.value), CredentialID(credential).value)
    ensures r.Failure? ==> r.error.errorType == RequestFailed
  {
    match credential
    case PlatformRegistration(c) => HandlePlatformPublicKeyRegistrationResponse(c, availability)
    case SecurityKeyRegistration(c) => HandleSecurityKeyPublicKeyRegistrationResponse(c, availability)
    case PlatformAssertion(c) => Success(HandlePlatformPublicKeyAssertionResponse(c, availability))
    case SecurityKeyAssertion(c) => Success(HandleSecurityKeyPublicKeyAssertionResponse(c))
    case OtherCredential => Failure(UnexpectedCredentialType)
  }

  /** The promise call of the success callback; `encodingFailure` is the outcome of encoding the result record. */
  function AuthorizationSettlement(credential: AuthorizationCredential, availability: Availability, encodingFailure: Option<string>): (s: Settlement)
    ensures s.Resolved? <==> HandleAuthorization(credential, availability).Success? && encodingFailure.None?
    ensures s.Resolved? ==> s.value == HandleAuthorization(credential, availability).value
    ensures HandleAuthorization(credential, availability).Failure? ==>
      s == ErrorSettlement(PasskeyError(HandleAuthorization(credential, availability).error))
    ensures HandleAuthorization(credential, availability).Success? ==>
      s == SuccessSettlement(HandleAuthorization(credential, availability).value, encodingFailure)
    ensures HandleAuthorization(credential, availability).Success? && encodingFailure.Some? ==>
      s == Rejected(RawValueOf(Unknown), Text(encodingFailure.value), None)
  {
    match HandleAuthorization(credential, availability)
    case Success(json) => SuccessSettlement(json, encodingFailure)
    case Failure(e) => ErrorSettlement(PasskeyError(e))
  }

  /** The promise call of the error callback: `requestFailed` with the native error's description, whatever its code. */
  function NativeErrorSettlement(error: NativeError): (s: Settlement)
    ensures s.Rejected? && s.code == RawValueOf(RequestFailed)
    ensures s.message == Text(error.localizedDescription) && s.error.None?
  {
    ErrorSettlement(PasskeyError(RNPasskeyError(RequestFailed, Some(error.localizedDescription))))
  }

  /** A user cancellation is reported like every other native error. */
  lemma CancellationIsRequestFailed(description: string, code: int)
    ensures NativeErrorSettlement(NativeError(CanceledCode, description)) == NativeErrorSettlement(NativeError(code, description))
  {
  }

  /** How a ceremony ends: the system calls exactly one of the two terminal callbacks. */
  datatype Completion =
    | Authorized(credential: AuthorizationCredential, encodingFailure: Option<string>)
    | Failed(error: NativeError)

  /** The promise call a completion leads to. */
  function CompletionSettlement(completion: Completion, availability: Availability): Settlement
  {
    match completion
    case Authorized(credential, encodingFailure) => AuthorizationSettlement(credential, availability, encodingFailure)
    case Failed(error) => NativeErrorSettlement(error)
  }

  class AuthResponder {
    const handler: ResponseHandler

    constructor (promise: Promise)
      ensures handler.promise == promise
    {
      handler := new ResponseHandler(promise);
    }

    /** `performAuth`: install this responder on the controller and retain it until a callback arrives. */
    method PerformAuth(controller: AuthorizationController, pending: PendingRequests)
      modifies controller, pending
      ensures controller.delegate == this && controller.presentationContextProvider == this
      ensures pending.members == old(pending.members) + {this}
    {
      controller.delegate := this;
      controller.presentationContextProvider := this;
      pending.members := pending.members + {this};
    }

    /** `authorizationController(controller:didCompleteWithAuthorization:)`. */
    method DidCompleteWithAuthorization(credential: AuthorizationCredential, availability: Availability,
                                        encodingFailure: Option<string>, pending: PendingRequests)
      modifies handler.promise, pending
      ensures handler.promise.settlements == old(handler.promise.settlements) + [AuthorizationSettlement(credential, availability, encodingFailure)]
      ensures pending.members == old(pending.members) - {this}
    {
      var result := HandleAuthorization(credential, availability);
      match result {
        case Success(json) =>
          handler.OnSuccess(json, encodingFailure);
        case Failure(e) =>
          handler.OnError(PasskeyError(e));
      }
      pending.members := pending.members - {this};
    }

    /** `authorizationController(controller:didCompleteWithError:)`. */
    method DidCompleteWithError(error: NativeError, pending: PendingRequests)
      modifies handler.promise, pending
      ensures handler.promise.settlements == old(handler.promise.settlements) + [NativeErrorSettlement(error)]
      ensures pending.members == old(pending.members) - {this}
    {
      handler.OnError(PasskeyError(RNPasskeyError(RequestFailed, Some(error.localizedDescription))));
      pending.members := pending.members - {this};
    }

    /**
     * A whole ceremony: `performAuth` followed by the one terminal callback the system delivers.
     * The responder is retained while the ceremony runs, the pending set is back to what it was
     * afterwards, and the promise has been settled exactly once.
     */
    method Ceremony(controller: AuthorizationController, completion: Completion, availability: Availability, pending: PendingRequests)
      requires this !in pending.members
      modifies controller, handler.promise, pending
      ensures controller.delegate == this
      ensures pending.members == old(pending.members)
      ensures handler.promise.settlements == old(handler.promise.settlements) + [CompletionSettlement(completion, availability)]
    {
      PerformAuth(controller, pending);
      assert this in pending.members;
      match completion
      case Authorized(credential, encodingFailure) =>
        DidCompleteWithAuthorization(credential, availability, encodingFailure, pending);
      case Failed(error) =>
        DidCompleteWithError(error, pending);
    }
  }
}
