/**
 * android/src/main/java/expo/modules/passkeys/ExpoPasskeysModule.kt: the Android native
 * module. It answers `isSupported` from the API level, passes a request to the Credential
 * Manager and settles the promise with the response JSON or with a message that normalises
 * the Credential Manager's exception. The Credential Manager's outcome is an input here.
 */
module AndroidPasskeysModule {
  import opened Wrappers

  /** The lowest API level with passkey support. */
  const MinApiLevelPasskeys := 28

  /** The bundle keys under which the Credential Manager returns the response JSON. */
  const RegistrationResponse := "androidx.credentials.BUNDLE_KEY_REGISTRATION_RESPONSE_JSON"
  const AuthResponse := "androidx.credentials.BUNDLE_KEY_AUTHENTICATION_RESPONSE_JSON"

  /** The `isSupported` function of the module. */
  function IsSupported(sdkInt: int): (r: bool)
    ensures r <==> sdkInt >= MinApiLevelPasskeys
  {
    sdkInt >= MinApiLevelPasskeys
  }

  /** Kotlin's `toString()` on a nullable text: the text itself, or "null". */
  function KotlinToString(text: Option<string>): (r: string)
    ensures text.Some? ==> r == text.value
    ensures text.None? ==> r == "null"
  {
    if text.Some? then text.value else "null"
  }

  /**
   * The subtypes of `CreateCredentialException` the module distinguishes. Any other subtype
   * is `OtherCreateCredentialException`, holding what its `toString()` returns.
   */
  datatype CreateCredentialException =
    | CreatePublicKeyCredentialDomException(errorMessage: Option<string>)
    | CreateCredentialCancellationException
    | CreateCredentialInterruptedException
    | CreateCredentialProviderConfigurationException
    | CreateCredentialUnknownException
    | CreateCredentialUnsupportedException
    | OtherCreateCredentialException(text: string)

  /**
   * The subtypes of `GetCredentialException` the module distinguishes; `domError` is what the
   * DOM error's `toString()` returns. Any other subtype is `OtherGetCredentialException`.
   */
  datatype GetCredentialException =
    | GetPublicKeyCredentialDomException(domError: string)
    | GetCredentialCancellationException
    | GetCredentialInterruptedException
    | GetCredentialProviderConfigurationException
    | GetCredentialUnknownException
    | GetCredentialUnsupportedException
    | NoCredentialException
    | OtherGetCredentialException(text: string)

  /** `getRegistrationException`: the rejection message for a failed registration. */
  function GetRegistrationException(e: CreateCredentialException): (message: string)
    ensures e.CreatePublicKeyCredentialDomException? ==> message == KotlinToString(e.errorMessage)
    ensures e.CreateCredentialCancellationException? ==> message == "UserCancelled"
    ensures e.CreateCredentialInterruptedException? ==> message == "Interrupted"
    ensures e.CreateCredentialProviderConfigurationException? ==> message == "NotConfigured"
    ensures e.CreateCredentialUnknownException? ==> message == "UnknownError"
    ensures e.CreateCredentialUnsupportedException? ==> message == "NotSupported"
    ensures e.OtherCreateCredentialException? ==> message == e.text
  {
    match e
    case CreatePublicKeyCredentialDomException(errorMessage) => KotlinToString(errorMessage)
    case CreateCredentialCancellationException => "UserCancelled"
    case CreateCredentialInterruptedException => "Interrupted"
    case CreateCredentialProviderConfigurationException => "NotConfigured"
    case CreateCredentialUnknownException => "UnknownError"
    case CreateCredentialUnsupportedException => "NotSupported"
    case OtherCreateCredentialException(text) => text
  }

  /** `getAuthenticationException`: the rejection message for a failed authentication. */
  function GetAuthenticationException(e: GetCredentialException): (message: string)
    ensures e.GetPublicKeyCredentialDomException? ==> message == e.domError
    ensures e.GetCredentialCancellationException? ==> message == "UserCancelled"
    ensures e.GetCredentialInterruptedException? ==> message == "Interrupted"
    ensures e.GetCredentialProviderConfigurationException? ==> message == "NotConfigured"
    ensures e.GetCredentialUnknownException? ==> message == "UnknownError"
    ensures e.GetCredentialUnsupportedException? ==> message == "NotSupported"
    ensures e.NoCredentialException? ==> message == "NoCredentials"
    ensures e.OtherGetCredentialException? ==> message == e.text
  {
    match e
    case GetPublicKeyCredentialDomException(domError) => domError
    case GetCredentialCancellationException => "UserCancelled"
    case GetCredentialInterruptedException => "Interrupted"
    case GetCredentialProviderConfigurationException => "NotConfigured"
    case GetCredentialUnknownException => "UnknownError"
    case GetCredentialUnsupportedException => "NotSupported"
    case NoCredentialException => "NoCredentials"
    case OtherGetCredentialException(text) => text
  }

  // ---------------------------------------------------------------- the two mappings agree

  /** The five failure kinds that both registration and authentication can report. */
  datatype CommonFailure = Cancellation | Interrupted | ProviderConfiguration | UnknownFailure | Unsupported

  /** The message each common failure is reported with. */
  function CommonMessage(kind: CommonFailure): string
  {
    match kind
    case Cancellation => "UserCancelled"
    case Interrupted => "Interrupted"
    case ProviderConfiguration => "NotConfigured"
    case UnknownFailure => "UnknownError"
    case Unsupported => "NotSupported"
  }

  function CreateFailure(kind: CommonFailure): CreateCredentialException
  {
    match kind
    case Cancellation => CreateCredentialCancellationException
    case Interrupted => CreateCredentialInterruptedException
    case ProviderConfiguration => CreateCredentialProviderConfigurationException
    case UnknownFailure => CreateCredentialUnknownException
    case Unsupported => CreateCredentialUnsupportedException
  }

  function GetFailure(kind: CommonFailure): GetCredentialException
  {
    match kind
    case Cancellation => GetCredentialCancellationException
    case Interrupted => GetCredentialInterruptedException
    case ProviderConfiguration => GetCredentialProviderConfigurationException
    case UnknownFailure => GetCredentialUnknownException
    case Unsupported => GetCredentialUnsupportedException
  }

  /** Registration and authentication report each common failure with the same message. */
  lemma CommonFailuresAgree(kind: CommonFailure)
    ensures GetRegistrationException(CreateFailure(kind)) == CommonMessage(kind)
    ensures GetAuthenticationException(GetFailure(kind)) == CommonMessage(kind)
  {
  }

  /** The five common messages are pairwise different, so a message names its failure kind. */
  lemma CommonMessagesDistinct(a: CommonFailure, b: CommonFailure)
    requires CommonMessage(a) == CommonMessage(b)
    ensures a == b
  {
  }

  /**
   * "NoCredentials" is an authentication message: a registration reports it only when a
   * DOM error message or another exception's text is literally that string.
   */
  lemma NoCredentialsOnlyPassedThrough(e: CreateCredentialException)
    requires GetRegistrationException(e) == "NoCredentials"
    ensures e.CreatePublicKeyCredentialDomException? || e.OtherCreateCredentialException?
  {
  }

  // ---------------------------------------------------------------- the promise outcome

  /** An Android `Bundle` of string values. */
  type Bundle = map<string, string>

  /** `bundle.getString(key)`: null when the key is absent. */
  function GetString(bundle: Bundle, key: string): (r: Option<string>)
    ensures r.Some? <==> key in bundle
    ensures r.Some? ==> r.value == bundle[key]
  {
    if key in bundle then Some(bundle[key]) else None
  }

  /** How an `AsyncFunction` settles its promise. */
  datatype Settlement<+E> = Resolve(value: Option<string>) | Reject(code: string, message: string, cause: E)

  /**
   * The promise outcome of `create`. `call` is what `createCredential` would do: return the
   * response's data bundle or throw. Without a current activity no call is made.
   */
  function CreateOutcome(hasActivity: bool, call: Result<Bundle, CreateCredentialException>): (s: Settlement<CreateCredentialException>)
    ensures !hasActivity ==> s == Resolve(None)
    ensures s.Reject? <==> hasActivity && call.Failure?
    ensures s.Reject? ==> s == Reject("Passkey Create", GetRegistrationException(call.error), call.error)
    ensures s.Resolve? && s.value.Some? <==> hasActivity && call.Success? && RegistrationResponse in call.value
    ensures s.Resolve? && s.value.Some? ==> s.value.value == call.value[RegistrationResponse]
  {
    if !hasActivity then Resolve(None)
    else
      match call
      case Success(data) => Resolve(GetString(data, RegistrationResponse))
      case Failure(e) => Reject("Passkey Create", GetRegistrationException(e), e)
  }

  /** The promise outcome of `get`; `call` gives the data bundle of the returned credential. */
  function GetOutcome(hasActivity: bool, call: Result<Bundle, GetCredentialException>): (s: Settlement<GetCredentialException>)
    ensures !hasActivity ==> s == Resolve(None)
    ensures s.Reject? <==> hasActivity && call.Failure?
    ensures s.Reject? ==> s == Reject("Passkey Get", GetAuthenticationException(call.error), call.error)
    ensures s.Resolve? && s.value.Some? <==> hasActivity && call.Success? && AuthResponse in call.value
    ensures s.Resolve? && s.value.Some? ==> s.value.value == call.value[AuthResponse]
  {
    if !hasActivity then Resolve(None)
    else
      match call
      case Success(data) => Resolve(GetString(data, AuthResponse))
      case Failure(e) => Reject("Passkey Get", GetAuthenticationException(e), e)
  }
}
