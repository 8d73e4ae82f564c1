# react-native-passkey, modelled in Dafny

react-native-passkey lets a React Native app register and use WebAuthn passkeys. It consists of:
- a JavaScript facade, `Passkey`;
- an iOS native module, built on AuthenticationServices;
- an Android native module, built on the Credential Manager.

This project models the translation and bookkeeping layer of those three parts and proves properties about it.

**The JavaScript facade** (`PasskeyFacade`) covers:
- `isSupported`, including JavaScript's `parseInt(version, 10)`;
- the six entry points. Each either throws `NotSupportedError` or makes one native call with a fixed pair of force flags, then returns the result unchanged or rethrows through `handleNativeError`.

**The iOS request side** (`IosPasskeyManager`) covers:
- the four `configure*Request` builders, as functions from the decoded options to a request value;
- `createKey` and `signWithKey`. `PrepareCreate` and `PrepareSign` model the validation: decode the challenge, take the user id's UTF-8 bytes, choose a builder. `CreateKey` and `SignWithKey` are methods that either reject the promise with code "ERROR" or create a controller and a responder and start the ceremony.

**The iOS response side** (`IosResponseHandler`) covers:
- the four `handle*Response` translators, from a native credential to the JSON result record;
- the `ResponseHandler` class, whose `OnSuccess` and `OnError` settle the Expo promise.

**The iOS ceremony bookkeeping** (`IosAuthResponder`):
- The module-level `pendingRequests` set is a `PendingRequests` object.
- `AuthResponder` is a class with `PerformAuth` and the two terminal callbacks.
- `Ceremony` shows a whole run: the pending set returns to its old contents and the promise is settled exactly once.

**The Android module** (`AndroidPasskeysModule`) covers:
- `isSupported`;
- the two exception normalisers;
- the resolve or reject outcome of `create` and `get`.

**Supporting modules:**
- `IosPasskeyTypes` holds the decoded request records, the JSON result records, `RNPasskeyError` and the Expo `Promise`. The promise is a class that records every `resolve` and `reject` call made on it.
- `AuthenticationServices` holds Apple's request and credential types, as far as the module touches them.
- `Base64Url` is an unpadded, canonical codec per section 5 of RFC 4648. It stands in for `Data(base64URLEncoded:)` and `toBase64URLEncodedString()`, which are not part of this model.
- `Utf8` is a codec per RFC 3629. It stands in for `String.data(using: .utf8)` and `String(data:encoding: .utf8)`.
- `Seqs` holds Swift's `map` and `compactMap`.

The round-trip lemmas of `Base64Url` and `Utf8` are properties of these stand-ins, not claims the repository makes.

**Where the code differs from what its documentation or tests suggest, the model follows the code:**
- The JavaScript Android check is `Platform.Version > 28`, while the Kotlin `isSupported` is `>= 28`. `AndroidChecksDifferOnlyAt28` shows they disagree exactly at API level 28.
- The three `get*` entry points call the native `sign` method, although the tests mock and expect `get` (`NativeMethodOf`).
- The iOS error callback reports every native error, including user cancellation, as `requestFailed` (`CancellationIsRequestFailed`).
- The Android normalisers return `e.toString()` for exception subtypes they do not name. They do not return "UnknownError" for these.
- The iOS user id is the UTF-8 bytes of `user.id`, not a base64url decoding. That conversion cannot fail for a Swift string, so `invalidUser` is never raised (`PrepareCreate`).
- The security-key registration translator takes its transports only when the registration credential also casts to a credential *descriptor*. The cast's outcome is an input here (`descriptorTransports`), so the model does not decide whether it can ever succeed.

## Model

| member | source | states |
|---|---|---|
| IosPasskeyManager.ConfigureCreatePlatformRequest | ios/PasskeyManager.swift:6-20 | platform provider; relying party is `rp.id`, else `rp.name`; challenge, name and user id passed on; user verification set exactly when `authenticatorSelection` is present, defaulting to preferred; display name, resident key, attestation, credential parameters and large blob left unset |
| IosPasskeyManager.ConfigureCreateSecurityKeyRequest | ios/PasskeyManager.swift:22-53 | security-key provider with the same relying-party fallback; display name passed on; credential parameters are the element-wise `appleise()` of `pubKeyCredParams`, same length and order; user verification and resident key set exactly when `authenticatorSelection` is present, each defaulting to preferred; attestation set exactly when given; large-blob support set exactly when iOS 17 is available and `extensions.largeBlob.support` is present |
| IosPasskeyManager.ConfigureGetPlatformRequest | ios/PasskeyManager.swift:55-70 | platform provider for `rpId`; allowed credentials present exactly when `allowCredentials` is, as platform descriptors element by element in order; user verification equals the request's with no default; large-blob read and write unset |
| IosPasskeyManager.ConfigureGetSecurityKeyRequest | ios/PasskeyManager.swift:72-97 | security-key provider; allowed credentials as cross-platform descriptors element by element in order; user verification with no default; large-blob read and write each set independently, exactly when iOS 17 is available and that input is present, to that input |
| IosPasskeyManager.PrepareCreate | ios/PasskeyManager.swift:99-118 | a decoding failure is passed on; otherwise it fails exactly when the challenge is not base64url (with the stand-in codec), with `invalidChallenge`, and never with `invalidUser`; on success the challenge re-encodes to the request's text, the user id decodes back to `user.id`, and the builder is the security-key one exactly when `useSecurityKey` holds |
| IosPasskeyManager.PrepareSign | ios/PasskeyManager.swift:128-142 | a decoding failure is passed on; otherwise it fails exactly when the challenge is not base64url (with the stand-in codec), with `invalidChallenge`; on success the challenge re-encodes to the request's text and the builder follows `useSecurityKey` |
| IosPasskeyManager.PreparationRejection | ios/PasskeyManager.swift:123-125 | the `catch` block of both entry points: a rejection with code "ERROR", the error's localized description as message, and the error itself |
| IosPasskeyManager.CreateKey | ios/PasskeyManager.swift:99-126 | on a preparation failure the promise gets one rejection with code "ERROR", the error's description and the error, and no controller or responder exists; otherwise a new controller holds exactly the prepared registration request, a new responder for this promise is its delegate and is added to the pending set, and the promise is not yet settled |
| IosPasskeyManager.SignWithKey | ios/PasskeyManager.swift:128-150 | the same for the prepared assertion request |
| IosPasskeyManager.CreateBuildersAgree | ios/PasskeyManager.swift:6-53 | the platform registration request is the security-key one with the provider changed and the security-key-only settings cleared |
| IosPasskeyManager.AllowedCredentialsRecoverRequest | ios/PasskeyManager.swift:59-79 | the sources of the allowed credentials of either assertion builder are exactly the request's `allowCredentials`, in order |
| IosPasskeyManager.CredentialParametersRecoverRequest | ios/PasskeyManager.swift:31-32 | the sources of the security-key credential parameters are exactly `pubKeyCredParams`, in order |
| IosPasskeyManager.UserHandleRoundTrip | ios/PasskeyManager.swift:110-113 | the user id a registration is created with reads back as the user handle `user.id` when an assertion returns those bytes |
| IosResponseHandler.Encoded | ios/ResponseHandler.swift:43-44 | the base64url text of bytes decodes back to those bytes |
| IosResponseHandler.HandlePlatformPublicKeyRegistrationResponse | ios/ResponseHandler.swift:37-64 | fails exactly when the attestation object is missing, with `requestFailed` "Invalid attestation object"; otherwise `id` equals `rawId` and carries the credential id, client data and attestation object are carried, type is "public-key", no transports, extension results present exactly when iOS 17 is available and the credential has large-blob output, with `supported` equal to `isSupported` |
| IosResponseHandler.RegistrationTransports | ios/ResponseHandler.swift:71-79 | empty unless iOS 17.5 is available and the descriptor cast succeeds; never longer than the raw list; every transport comes from a raw value in the list, and every recognised raw value appears |
| IosResponseHandler.RegistrationTransportsOfList | ios/ResponseHandler.swift:73-77 | once iOS 17.5 is available and the cast succeeds, the transports depend on the raw list alone |
| IosResponseHandler.TransportsOfOne | ios/ResponseHandler.swift:75-77 | a single raw value gives its transport when recognised and nothing otherwise |
| IosResponseHandler.TransportsOfAppend | ios/ResponseHandler.swift:75-77 | the transports of two lists joined are the transports of the first followed by those of the second, so list order and repeats are kept |
| IosResponseHandler.TransportsExample | ios/ResponseHandler.swift:75-77 | `["usb","xx","usb"]` gives `[usb, usb]` and `["usb","nfc"]` gives `[usb, nfc]`: unknown values are dropped, repeats and order stay |
| IosResponseHandler.HandleSecurityKeyPublicKeyRegistrationResponse | ios/ResponseHandler.swift:66-94 | the same failure rule; `id` equals `rawId` and the binary fields are carried; no type; transports as above; no extension results |
| IosResponseHandler.UserHandle | ios/ResponseHandler.swift:111 | present exactly when `userID` is present and valid UTF-8, and then its UTF-8 encoding is `userID` |
| IosResponseHandler.AssertionLargeBlob | ios/ResponseHandler.swift:97-108 | `supported` never set; `blob` set exactly for a read result with data, to that data; `written` set exactly for a write result, to its success flag; both only with iOS 17; never both |
| IosResponseHandler.HandlePlatformPublicKeyAssertionResponse | ios/ResponseHandler.swift:96-128 | never fails; `id` equals `rawId`; credential id, authenticator data, client data and signature are carried; user handle as above; always one large-blob extension object |
| IosResponseHandler.HandleSecurityKeyPublicKeyAssertionResponse | ios/ResponseHandler.swift:130-147 | never fails; same carried fields and user handle; no extension results |
| IosResponseHandler.ErrorSettlement | ios/ResponseHandler.swift:27-34 | an `RNPasskeyError` is rejected with its type's raw value, its message and no error object; any other error with the `unknown` raw value, its localized description and the error |
| IosResponseHandler.SuccessSettlement | ios/ResponseHandler.swift:18-25 | resolves with the result exactly when it encodes; an encoding failure becomes an `unknown` rejection carrying the failure's description |
| IosResponseHandler.ResponseHandler.OnSuccess | ios/ResponseHandler.swift:18-25 | appends exactly one settlement, the success settlement, to the promise |
| IosResponseHandler.ResponseHandler.OnError | ios/ResponseHandler.swift:27-34 | appends exactly one settlement, the error settlement, to the promise |
| IosResponseHandler.ResponseHandler.constructor | ios/ResponseHandler.swift:11-16 | the handler settles the given promise |
| IosAuthResponder.HandleAuthorization | ios/AuthResponder.swift:34-45 | each of the four credential kinds goes to its own translator, any other kind fails with `requestFailed` "Unexpected credential type"; a success is a registration result exactly for a registration credential and carries the credential id; every failure is `requestFailed` |
| IosAuthResponder.AuthorizationSettlement | ios/AuthResponder.swift:30-50 | resolves exactly when translation and encoding succeed, with the translated result; a translation failure is reported through the error settlement; a successful translation whose encoding fails is rejected with code `unknown` and the encoder's message |
| IosAuthResponder.NativeErrorSettlement | ios/AuthResponder.swift:55-56 | a rejection with the `requestFailed` raw value and the native error's description, whatever its code |
| IosAuthResponder.CancellationIsRequestFailed | ios/AuthResponder.swift:56 | a user cancellation is settled exactly like any other native error with the same description |
| IosAuthResponder.AuthResponder.constructor | ios/AuthResponder.swift:11-14 | the responder's handler settles the given promise |
| IosAuthResponder.AuthResponder.PerformAuth | ios/AuthResponder.swift:23-28 | the responder becomes the controller's delegate and presentation context provider and is added to the pending set, which is otherwise unchanged |
| IosAuthResponder.AuthResponder.DidCompleteWithAuthorization | ios/AuthResponder.swift:30-53 | exactly one settlement, the authorization settlement, is appended, and the responder is removed from the pending set whether translation succeeded or not; other entries stay |
| IosAuthResponder.AuthResponder.DidCompleteWithError | ios/AuthResponder.swift:55-58 | exactly one `requestFailed` settlement is appended and the responder is removed; other entries stay |
| IosAuthResponder.AuthResponder.Ceremony | ios/AuthResponder.swift:23-58 | for a responder not yet pending, a ceremony leaves the pending set as it was and settles the promise exactly once, according to how it completed |
| IosAuthResponder.PendingRequests.constructor | ios/AuthResponder.swift:5 | the pending set starts empty |
| IosPasskeyTypes.TransportFromRawValue | ios/ResponseHandler.swift:76 | a recognised raw value names a transport whose raw value it is |
| IosPasskeyTypes.TransportRawValueRoundTrip | ios/ResponseHandler.swift:76 | every transport is recognised from its own raw value |
| IosPasskeyTypes.MessageOf | ios/ResponseHandler.swift:29 | an error's message, or its type's default message when it has none |
| IosPasskeyTypes.Promise.Resolve | ios/ResponseHandler.swift:12-15 | records one `resolve` call |
| IosPasskeyTypes.Promise.Reject | ios/ResponseHandler.swift:12-15 | records one `reject` call |
| AndroidPasskeysModule.IsSupported | android/src/main/java/expo/modules/passkeys/ExpoPasskeysModule.kt:39-43 | true exactly when the API level is at least 28 |
| AndroidPasskeysModule.KotlinToString | android/src/main/java/expo/modules/passkeys/ExpoPasskeysModule.kt:89 | a missing DOM error message becomes the text "null" |
| AndroidPasskeysModule.GetRegistrationException | android/src/main/java/expo/modules/passkeys/ExpoPasskeysModule.kt:86-114 | DOM exception gives its error message verbatim; cancellation "UserCancelled", interrupted "Interrupted", provider configuration "NotConfigured", unknown "UnknownError", unsupported "NotSupported"; any other subtype its `toString()` |
| AndroidPasskeysModule.GetAuthenticationException | android/src/main/java/expo/modules/passkeys/ExpoPasskeysModule.kt:116-149 | DOM exception gives its DOM error verbatim; the same five messages; no credential "NoCredentials"; any other subtype its `toString()` |
| AndroidPasskeysModule.CommonFailuresAgree | android/src/main/java/expo/modules/passkeys/ExpoPasskeysModule.kt:93-140 | registration and authentication report each of the five shared failure kinds with the same message |
| AndroidPasskeysModule.CommonMessagesDistinct | android/src/main/java/expo/modules/passkeys/ExpoPasskeysModule.kt:93-111 | the five shared messages are pairwise different |
| AndroidPasskeysModule.NoCredentialsOnlyPassedThrough | android/src/main/java/expo/modules/passkeys/ExpoPasskeysModule.kt:86-114 | a registration reports "NoCredentials" only by passing a DOM message or an exception's text through |
| AndroidPasskeysModule.GetString | android/src/main/java/expo/modules/passkeys/ExpoPasskeysModule.kt:56 | the bundle value under a key, absent exactly when the key is |
| AndroidPasskeysModule.CreateOutcome | android/src/main/java/expo/modules/passkeys/ExpoPasskeysModule.kt:45-63 | without an activity it resolves with null; it rejects exactly when the call threw, with "Passkey Create", the normalised message and the exception; it resolves with a value exactly when the response bundle has the registration key, and then with that value |
| AndroidPasskeysModule.GetOutcome | android/src/main/java/expo/modules/passkeys/ExpoPasskeysModule.kt:65-83 | the same with "Passkey Get", the authentication normaliser and the authentication key |
| PasskeyFacade.IsSupported | src/Passkey.ts:189-199 | Android: API level above 28; iOS: `parseInt` of the version is a number at least 15; any other OS: false |
| PasskeyFacade.ParseInt | src/Passkey.ts:195 | `parseInt(v, 10)` is NaN exactly when no digit follows the leading white space and optional sign; otherwise it is the value of that digit run (exact, where JavaScript rounds runs above 2^53 to a double), negated exactly when the sign is a minus |
| PasskeyFacade.ParseIntNegatedInteger | src/Passkey.ts:195 | `parseInt` of a minus sign followed by decimal digits is the negated value of those digits, whatever follows |
| PasskeyFacade.ParseIntLeadingInteger | src/Passkey.ts:195 | `parseInt` of a text starting with decimal digits is the value of those digits, whatever follows (exact, where JavaScript rounds above 2^53) |
| PasskeyFacade.IosSupportedByMajorVersion | src/Passkey.ts:194-196 | an iOS version text starting with a number is supported exactly when that number is at least 15 |
| PasskeyFacade.IosSupportedExamples | src/__tests__/ExpoPasskeys.test.ios.ts:17-26 | iOS "14.2" is unsupported and iOS "15.0" is supported, as the iOS tests expect |
| PasskeyFacade.AndroidSupportedExamples | src/__tests__/ExpoPasskeys.test.android.ts:17-26 | Android 26 is unsupported and Android 33 is supported, as the Android tests expect |
| PasskeyFacade.AndroidChecksDifferOnlyAt28 | src/Passkey.ts:190-192 | the JavaScript and Kotlin Android checks disagree at API level 28 and nowhere else |
| PasskeyFacade.NativeMethodOf | src/Passkey.ts:106-182 | the native `sign` method is called exactly by the three `get*` entry points |
| PasskeyFacade.ForceFlags | src/Passkey.ts:20-182 | `forcePlatformKey` exactly for the platform-key variants, `forceSecurityKey` exactly for the security-key variants, never both |
| PasskeyFacade.Invoke | src/Passkey.ts:20-38 | unsupported exactly when no native call is made, and then it throws `NotSupportedError`; otherwise exactly one call with the request text and the entry's flags, returning the native value unchanged or throwing the handled rejection |
| PasskeyFacade.UnsupportedIgnoresNative | src/Passkey.ts:23-25 | on an unsupported platform the outcome does not depend on the native module |
| PasskeyFacade.TrimStart | src/Passkey.ts:195 | `parseInt`'s removal of leading white space: a suffix, starting with a non-space, after only white space |
| PasskeyFacade.LeadingDigits | src/Passkey.ts:195 | `parseInt`'s digit run: the longest prefix of decimal digits |
| Base64Url.Encode | ios/ResponseHandler.swift:43-44 | the stand-in for `toBase64URLEncodedString()` produces unpadded text of length ceil(4n/3) for n bytes |
| Base64Url.Decode | ios/PasskeyManager.swift:106 | the stand-in for `Data(base64URLEncoded:)` rejects every text of length 4k+1 and otherwise yields three bytes per four characters, rounded down |
| Base64Url.DecodeEncode | ios/ResponseHandler.swift:56-57 | the codec standing in for `toBase64URLEncodedString()`: decoding an encoding gives the bytes back |
| Base64Url.EncodeInjective | ios/PasskeyManager.swift:106 | two byte strings with the same encoding are equal, so the request's challenge text pins the challenge bytes `PrepareCreate` and `PrepareSign` pass on |
| Base64Url.EncodeDecode | ios/PasskeyManager.swift:106 | the codec standing in for `Data(base64URLEncoded:)`: a text that decodes is the encoding of what it decodes to, so decoding is injective |
| Utf8.Encode | ios/PasskeyManager.swift:111 | the stand-in for `data(using: .utf8)` is total and uses one to four bytes per character |
| Utf8.Decode | ios/ResponseHandler.swift:111 | the stand-in for `String(data:encoding: .utf8)` only succeeds with one to four bytes per decoded character |
| Utf8.DecodeEncode | ios/PasskeyManager.swift:111 | the stand-in for `data(using: .utf8)`: decoding the UTF-8 bytes of a string gives the string back |
| Utf8.EncodeDecode | ios/ResponseHandler.swift:111 | the stand-in for `String(data:encoding: .utf8)`: bytes that decode are the encoding of their decoding |
| Seqs.Map | ios/PasskeyManager.swift:32 | Swift's `map`: same length, each output the function of the input at the same index |
| Seqs.FilterMap | ios/ResponseHandler.swift:75-77 | Swift's `compactMap`: never longer, every output comes from an input, every recognised input appears, no drop when all are recognised |
| Seqs.FilterMapOne | ios/ResponseHandler.swift:75-77 | `compactMap` of one element is its mapped value when present and empty otherwise |
| Seqs.FilterMapAppend | ios/ResponseHandler.swift:75-77 | `compactMap` distributes over concatenation, so it keeps the inputs' order and repeats |
| Seqs.MapLeftInverse | ios/PasskeyManager.swift:32 | mapping with a function and then a left inverse of it gives back the original sequence |

## Left out

- The JSON records' initialisers are not part of this model. Arguments the translators omit (`type`, `transports`, `clientExtensionResults` at ios/ResponseHandler.swift:42-45 and 87-91) are assumed to default to nil, which is what the "no type", "no transports" and "no extension results" clauses rest on.
- PasskeyFacade.ParseInt: JavaScript's `parseInt` yields a double, so a digit run above 2^53 is rounded to the nearest double (`"9007199254740993"` gives 9007199254740992); the model gives the exact integer. Rounding is monotone and 15 is exact, so the `>= 15` decision of `IsSupported` is the same either way.
- PasskeyFacade.ParseIntLeadingInteger: states the exact value of the digit run for the same reason; above 2^53 JavaScript's result is that value rounded to a double.
- PasskeyFacade.ParseIntNegatedInteger: likewise states the exact negated value; JavaScript rounds its magnitude to a double above 2^53.
- IosPasskeyTypes.TransportFromRawValue: the Swift `AuthenticatorTransport` enum is not part of this model; its raw values are taken to be the WebAuthn transport names "usb", "nfc", "ble", "smart-card", "hybrid" and "internal", and `TransportsExample` relies on that.
- JSON encoding and decoding (`JSONDecoder`, `JSONEncoder`, `JSONSerialization`, `JSON.stringify`) is library code. The model starts from decoded records. A decoding failure or an encoding failure is an input carrying its description.
- `ASAuthorizationController.performRequests`, the system sheet and the `CredentialManager` calls are OS collaborators. Their outcomes are inputs: the `Completion` of a ceremony, and the bundle or exception of a Credential Manager call.
- `presentationAnchor(for:)` and its `fatalError` when there is no key window are presentation code, so they are not modelled.
- Coroutines (`mainScope.launch`) and asynchronous promise resolution are not modelled. A completion is a single value.
- `appContext.reactContext?.applicationContext!!` and the construction of the Credential Manager requests are platform plumbing.
- `appleise()`, `getPlatformDescriptor()` and `getCrossPlatformDescriptor()` are not part of this model. They are free constructors that record their source value, and the enumeration `appleise()` maps each case to the case of the same name.
- `handleNativeError` and `NotSupportedError` (src/PasskeyError) are not part of this model. They are a wrapper around the rejection reason and a distinguished outcome.
- The localized default messages of `RNPasskeyError` and `Error.localizedDescription` texts are symbolic (`DefaultMessageOf`, `LocalizedDescriptionOf`).
- The blob bytes of a large-blob read are kept as bytes. Their conversion to `[UInt]` is not modelled.
- ios/ExpoPasskeysModule.swift is not part of this model. Its calls do not match the `PasskeyManager` signatures, so how the force flags reach `useSecurityKey` on iOS is not modelled.
- IosResponseHandler.HandlePlatformPublicKeyAssertionResponse: the force-unwrap of a nil `signature`, a runtime trap, is excluded by making the signature non-optional.
- IosResponseHandler.HandleSecurityKeyPublicKeyAssertionResponse: the force-unwrap of a nil `signature` is excluded the same way.
- IosPasskeyManager.CreateKey: `request.data(using: .utf8)!` cannot fail for a Swift string, so it is not modelled.
- IosPasskeyManager.SignWithKey: `request.data(using: .utf8)!` is omitted for the same reason.
- `#available(iOS 17.0, *)` and `#available(iOS 17.5, *)` are two independent booleans. The model does not require 17.5 to imply 17.
- Android's `Platform.Version` is taken to be a number. The tests set it as a string, which JavaScript's `>` converts to a number.
