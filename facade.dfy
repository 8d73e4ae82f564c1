/**
 * src/Passkey.ts: the JavaScript API. `isSupported` checks the platform and its version;
 * each of the six entry points throws `NotSupportedError` on an unsupported platform and
 * otherwise makes one native call with the request text and a fixed pair of force flags,
 * returning the native result unchanged or rethrowing a rejection through
 * `handleNativeError`.
 */
module PasskeyFacade {
  import opened Wrappers
  import AndroidPasskeysModule

  // ---------------------------------------------------------------- JavaScript's parseInt(s, 10)

  /** The characters JavaScript's `StrWhiteSpaceChar` covers: white space and line terminators. */
  predicate IsJsWhiteSpace(c: char)
  {
    || c == '\t' || c == '\n' || c == '\U{000B}' || c == '\U{000C}' || c == '\r' || c == ' '
    || c == '\U{00A0}' || c == '\U{1680}' || ('\U{2000}' <= c <= '\U{200A}') || c == '\U{2028}' || c == '\U{2029}'
    || c == '\U{202F}' || c == '\U{205F}' || c == '\U{3000}' || c == '\U{FEFF}'
  }

  predicate IsDigit(c: char)
  {
    '0' <= c <= '9'
  }

  predicate AllDigits(d: string)
  {
    forall i :: 0 <= i < |d| ==> IsDigit(d[i])
  }

  /** The value of a string of decimal digits, most significant first. */
  function DigitsValue(d: string): nat
    requires AllDigits(d)
    decreases |d|
  {
    if d == [] then 0 else DigitsValue(d[..|d| - 1]) * 10 + ((d[|d| - 1] as int) - ('0' as int))
  }

  /** `s` without its leading white space. */
  function TrimStart(s: string): (r: string)
    ensures |r| <= |s| && r == s[|s| - |r|..]
    ensures r == [] || !IsJsWhiteSpace(r[0])
    ensures forall i :: 0 <= i < |s| - |r| ==> IsJsWhiteSpace(s[i])
  {
    if s != [] && IsJsWhiteSpace(s[0]) then
      var r := TrimStart(s[1..]);
      assert s[1..][|s| - 1 - |r|..] == s[|s| - |r|..];
      assert forall i :: 1 <= i < |s| - |r| ==> s[i] == s[1..][i - 1];
      r
    else s
  }

  /** The longest prefix of `s` made of decimal digits. */
  function LeadingDigits(s: string): (d: string)
    ensures |d| <= |s| && d == s[..|d|]
    ensures AllDigits(d)
    ensures |d| == |s| || !IsDigit(s[|d|])
  {
    if s != [] && IsDigit(s[0]) then
      var rest := LeadingDigits(s[1..]);
      assert [s[0]] + rest == s[..|rest| + 1];
      [s[0]] + rest
    else []
  }

  /** `s` after its leading white space and at most one sign. */
  function AfterSign(s: string): (r: string)
    ensures |r| <= |s|
  {
    var t := TrimStart(s);
    if |t| > 0 && (t[0] == '-' || t[0] == '+') then t[1..] else t
  }

  /**
   * `parseInt(s, 10)`: None stands for NaN, which it is exactly when no digit follows the
   * white space and sign; otherwise it is the value of the digit run, negated exactly when
   * the sign is a minus.
   */
  function ParseInt(s: string): (r: Option<int>)
    ensures r.None? <==> LeadingDigits(AfterSign(s)) == []
    ensures r.Some? ==> (
      && TrimStart(s) != []
      && r.value == if TrimStart(s)[0] == '-' then -(DigitsValue(LeadingDigits(AfterSign(s))) as int)
                    else DigitsValue(LeadingDigits(AfterSign(s))))
    ensures r.Some? && r.value < 0 ==> TrimStart(s) != [] && TrimStart(s)[0] == '-'
  {
    var t := TrimStart(s);
    var negative := |t| > 0 && t[0] == '-';
    var digits := LeadingDigits(AfterSign(s));
    if digits == [] then None
    else
      var magnitude: int := DigitsValue(digits);
      Some(if negative then -magnitude else magnitude)
  }

  /** A prefix of digits followed by a non-digit (or nothing) is the longest such prefix. */
  lemma LeadingDigitsOf(d: string, rest: string)
    requires AllDigits(d)
    requires rest == [] || !IsDigit(rest[0])
    ensures LeadingDigits(d + rest) == d
  {
    var s := d + rest;
    var e := LeadingDigits(s);
    assert forall i :: 0 <= i < |d| ==> s[i] == d[i];
    assert forall i :: 0 <= i < |e| ==> s[i] == e[i];
    assert |s| > |d| ==> s[|d|] == rest[0];
  }

  /** A digit is neither white space nor a sign. */
  lemma DigitIsNotSign(c: char)
    requires IsDigit(c)
    ensures !IsJsWhiteSpace(c) && c != '-' && c != '+'
  {
  }

  /** A text that does not start with white space is its own trimmed form. */
  lemma TrimStartOfUnspaced(s: string)
    requires s != [] && !IsJsWhiteSpace(s[0])
    ensures TrimStart(s) == s
  {
  }

  /** `parseInt` of a text that starts with a decimal integer is that integer, whatever follows it. */
  lemma ParseIntLeadingInteger(d: string, rest: string)
    requires |d| > 0 && AllDigits(d)
    requires rest == [] || !IsDigit(rest[0])
    ensures ParseInt(d + rest) == Some(DigitsValue(d))
  {
    var s := d + rest;
    assert s[0] == d[0];
    DigitIsNotSign(s[0]);
    TrimStartOfUnspaced(s);
    LeadingDigitsOf(d, rest);
  }
  /** `parseInt` of a minus sign followed by a decimal integer is that integer negated, whatever follows it. */
  lemma ParseIntNegatedInteger(d: string, rest: string)
    requires |d| > 0 && AllDigits(d)
    requires rest == [] || !IsDigit(rest[0])
    ensures ParseInt(['-'] + d + rest) == Some(-(DigitsValue(d) as int))
  {
    NegatedDigitsParts(d, rest);
    ParseIntOfNegated(['-'] + d + rest, d);
  }

  /** A trimmed text that starts with a minus sign parses to its digit run negated. */
  lemma ParseIntOfNegated(s: string, d: string)
    requires |d| > 0 && AllDigits(d)
    requires s != [] && TrimStart(s) == s && s[0] == '-' && LeadingDigits(AfterSign(s)) == d
    ensures ParseInt(s) == Some(-(DigitsValue(d) as int))
  {
  }

  /** The pieces `ParseInt` reads from a minus sign followed by a decimal integer. */
  lemma NegatedDigitsParts(d: string, rest: string)
    requires |d| > 0 && AllDigits(d)
    requires rest == [] || !IsDigit(rest[0])
    ensures var s := ['-'] + d + rest; TrimStart(s) == s && s[0] == '-' && LeadingDigits(AfterSign(s)) == d
  {
    var s := ['-'] + d + rest;
    assert s[0] == '-' && s[1..] == d + rest;
    assert !IsJsWhiteSpace('-');
    TrimStartOfUnspaced(s);
    LeadingDigitsOf(d, rest);
  }


  // ---------------------------------------------------------------- isSupported

  /** `Platform.OS` with `Platform.Version`: a number on Android, a version text on iOS. */
  datatype PlatformOS = Android(apiLevel: int) | Ios(version: string) | OtherOS(name: string)

  /** `Passkey.isSupported()`. */
  function IsSupported(platform: PlatformOS): (r: bool)
    ensures platform.Android? ==> (r <==> platform.apiLevel > 28)
    ensures platform.Ios? ==> (r <==> ParseInt(platform.version).Some? && ParseInt(platform.version).value >= 15)
    ensures platform.OtherOS? ==> !r
  {
    match platform
    case Android(apiLevel) => apiLevel > 28
    case Ios(version) =>
      var major := ParseInt(version);
      major.Some? && major.value >= 15
    case OtherOS(_) => false
  }

  /** On iOS, a version text that starts with a decimal number is supported exactly when that number is at least 15. */
  lemma IosSupportedByMajorVersion(major: string, rest: string)
    requires |major| > 0 && AllDigits(major)
    requires rest == [] || !IsDigit(rest[0])
    ensures IsSupported(Ios(major + rest)) <==> DigitsValue(major) >= 15
  {
    ParseIntLeadingInteger(major, rest);
  }

  /** The iOS versions the tests use: "14.2" is unsupported and "15.0" is supported. */
  lemma IosSupportedExamples()
    ensures !IsSupported(Ios("14.2")) && IsSupported(Ios("15.0"))
  {
    assert "14.2" == "14" + ".2" && "15.0" == "15" + ".0";
    assert "14"[..1] == "1" && "15"[..1] == "1" && "1"[..0] == [];
    assert DigitsValue("14") == 14 && DigitsValue("15") == 15;
    IosSupportedByMajorVersion("14", ".2");
    IosSupportedByMajorVersion("15", ".0");
  }

  /** The Android API levels the tests use: 26 is unsupported and 33 is supported. */
  lemma AndroidSupportedExamples()
    ensures !IsSupported(Android(26)) && IsSupported(Android(33))
  {
  }

  /** The JavaScript and Kotlin support checks for Android differ at API level 28 and nowhere else. */
  lemma AndroidChecksDifferOnlyAt28(apiLevel: int)
    ensures IsSupported(Android(apiLevel)) != AndroidPasskeysModule.IsSupported(apiLevel) <==> apiLevel == 28
  {
  }

  // ---------------------------------------------------------------- the six entry points

  datatype EntryPoint = Create | CreatePlatformKey | CreateSecurityKey | Get | GetPlatformKey | GetSecurityKey

  /** The two methods of the native module the entry points call. */
  datatype NativeMethod = NativeCreate | NativeSign

  /** One call to the native module: the method, the request text, `forcePlatformKey` and `forceSecurityKey`. */
  datatype NativeCall = NativeCall(nativeMethod: NativeMethod, requestJson: string, forcePlatformKey: bool, forceSecurityKey: bool)

  /** The native method an entry point calls: `create` for the three registrations, `sign` for the three authentications. */
  function NativeMethodOf(entry: EntryPoint): (m: NativeMethod)
    ensures m == NativeSign <==> entry in {Get, GetPlatformKey, GetSecurityKey}
  {
    match entry
    case Create | CreatePlatformKey | CreateSecurityKey => NativeCreate
    case Get | GetPlatformKey | GetSecurityKey => NativeSign
  }

  /** The force flags an entry point passes, as (forcePlatformKey, forceSecurityKey). */
  function ForceFlags(entry: EntryPoint): (flags: (bool, bool))
    ensures flags.0 <==> entry in {CreatePlatformKey, GetPlatformKey}
    ensures flags.1 <==> entry in {CreateSecurityKey, GetSecurityKey}
    ensures !(flags.0 && flags.1)
  {
    match entry
    case Create | Get => (false, false)
    case CreatePlatformKey | GetPlatformKey => (true, false)
    case CreateSecurityKey | GetSecurityKey => (false, true)
  }

  /** What the native module's promise does: fulfil with a value or reject with a reason. */
  datatype NativeReply<V, E> = Fulfilled(value: V) | Rejected(reason: E)

  /** `handleNativeError(reason)`: the error thrown for a native rejection. */
  datatype HandledError<E> = HandledNativeError(cause: E)

  /** How an entry point ends: it returns a value, throws `NotSupportedError`, or throws a handled native error. */
  datatype Outcome<V, E> = Returns(value: V) | ThrowsNotSupported | Throws(error: HandledError<E>)

  /** The native calls an entry point made, in order, and how it ended. */
  datatype Invocation<V, E> = Invocation(calls: seq<NativeCall>, outcome: Outcome<V, E>)

  /**
   * One entry point, called with the `JSON.stringify` text of its request on `platform`;
   * `native` stands for the native module and gives the reply to each call.
   */
  function Invoke<V, E>(entry: EntryPoint, platform: PlatformOS, requestJson: string, native: NativeCall -> NativeReply<V, E>): (r: Invocation<V, E>)
    ensures !IsSupported(platform) <==> r.calls == []
    ensures !IsSupported(platform) ==> r.outcome == ThrowsNotSupported
    ensures IsSupported(platform) ==>
      && |r.calls| == 1
      && r.calls[0] == NativeCall(NativeMethodOf(entry), requestJson, ForceFlags(entry).0, ForceFlags(entry).1)
    ensures IsSupported(platform) && native(r.calls[0]).Fulfilled? ==> r.outcome == Returns(native(r.calls[0]).value)
    ensures IsSupported(platform) && native(r.calls[0]).Rejected? ==> r.outcome == Throws(HandledNativeError(native(r.calls[0]).reason))
  {
    if !IsSupported(platform) then Invocation([], ThrowsNotSupported)
    else
      var flags := ForceFlags(entry);
      var call := NativeCall(NativeMethodOf(entry), requestJson, flags.0, flags.1);
      match native(call)
      case Fulfilled(value) => Invocation([call], Returns(value))
      case Rejected(reason) => Invocation([call], Throws(HandledNativeError(reason)))
  }

  /** On an unsupported platform the outcome does not depend on the native module at all. */
  lemma UnsupportedIgnoresNative<V, E>(entry: EntryPoint, platform: PlatformOS, requestJson: string,
                                       native1: NativeCall -> NativeReply<V, E>, native2: NativeCall -> NativeReply<V, E>)
    requires !IsSupported(platform)
    ensures Invoke(entry, platform, requestJson, native1) == Invoke(entry, platform, requestJson, native2)
  {
  }
}
