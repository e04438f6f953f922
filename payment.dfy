/** The Amazon Pay sample's error handler: the errors Amazon Pay leaves to the merchant, each
    turned into a spoken statement. A permission error also asks for a consent card, a known
    integration or runtime error is read out with its status code, status message and payload
    message, and anything else gets the generic message. Billing agreement states and
    authorization decline reasons are handled the same way.

    The handler's `debug` print is left out. The texts are the sample's configuration constants. */
module Payment {
  import opened Outcomes
  import opened PyJson
  import opened Text

  const ENABLE_PERMISSION: string := "Please enable permission for Amazon Pay in your Alexa app."
  const SCOPE: string := "payments:autopay_consent"
  const ERROR_MESSAGE: string := "Merchant error occurred. "
  const ERROR_UNKNOWN: string := "Unknown error occurred. "
  const ERROR_STATUS_CODE: string := "Status code: "
  const ERROR_STATUS_MESSAGE: string := " Status message: "
  const ERROR_PAYLOAD_MESSAGE: string := " Payload message: "
  const ERROR_BILLING_AGREEMENT: string := "Billing agreement state is "
  const ERROR_BILLING_AGREEMENT_MESSAGE: string := ". Reach out to the user to resolve this issue."
  const AUTHORIZATION_DECLINE_MESSAGE: string := "Your order was not placed and you have not been charged."

  /** Errors the user must resolve by granting Amazon Pay permission. */
  const KNOWN_PERMISSION_ERRORS: set<string> := {"ACCESS_DENIED", "ACCESS_NOT_REQUESTED", "FORBIDDEN"}

  /** Integration errors, then runtime errors. */
  const KNOWN_INTEGRATION_OR_RUNTIME_ERRORS: set<string> := {
    "BuyerEqualsSeller", "InvalidParameterValue", "InvalidSandboxCustomerEmail", "InvalidSellerId",
    "UnauthorizedAccess", "UnsupportedCountryOfEstablishment", "UnsupportedCurrency",
    "DuplicateRequest", "InternalServerError", "InvalidAuthorizationAmount", "InvalidBillingAgreementId",
    "InvalidBillingAgreementStatus", "InvalidPaymentAction", "PeriodicAmountExceeded",
    "ProviderNotAuthorized", "ServiceUnavailable"}

  /** Billing agreement states that need the user to update their payment method. */
  const KNOWN_BILLING_STATES: set<string> := {"CANCELED", "CLOSED", "SUSPENDED"}

  const KNOWN_DECLINE_REASONS: set<string> := {"AmazonRejected", "InvalidPaymentMethod", "ProcessingFailure", "TransactionTimedOut"}

  /** Python's `v in names` for a set of strings: only a string can be a member, and an
      unhashable value raises `TypeError`. */
  function InSet(v: Json, names: set<string>): (r: Outcome<bool>)
    ensures r.Raise? <==> !Hashable(v)
    ensures r.Ok? ==> (r.value <==> v.JStr? && v.s in names)
  {
    if !Hashable(v) then Raise(TypeError)
    else Ok(v.JStr? && v.s in names)
  }

  /** `text + v`: a string can only be joined with a string. */
  function Append(text: string, v: Json): (r: Outcome<string>)
    ensures r.Ok? <==> v.JStr?
    ensures r.Ok? ==> r.value == text + v.s
  {
    if v.JStr? then Ok(text + v.s) else Raise(TypeError)
  }

  /** What the handler decides to say: the speech, and the scope of the consent card it asks
      for, if it asks for one. */
  datatype Advice = Advice(speech: string, consentScope: Option<string>)

  /** `actionResponsePayloadMessage`: the payload's `errorMessage` when it has one, else `''`. */
  function PayloadMessage(payload: Json): Outcome<Json> {
    match StrIn("errorMessage", payload)
    case Raise(e) => Raise(e)
    case Ok(present) => if present then Index(payload, "errorMessage") else Ok(JStr(""))
  }

  /** The fixed concatenation read out for a known integration or runtime error. */
  function MerchantError(code: Json, message: Json, payloadMessage: Json): Outcome<string> {
    match Append(ERROR_MESSAGE + ERROR_STATUS_CODE, code)
    case Raise(e) => Raise(e)
    case Ok(a) =>
      match Append(a + "." + ERROR_STATUS_MESSAGE, message)
      case Raise(e) => Raise(e)
      case Ok(b) => Append(b + "." + ERROR_PAYLOAD_MESSAGE, payloadMessage)
  }

  /** The decision of `handleErrors`, from the reads of the response's status and payload. */
  function ErrorAdvice(request: Json): Outcome<Advice> {
    match Index(request, "status")
    case Raise(e) => Raise(e)
    case Ok(status) =>
      match Index(status, "code")
      case Raise(e) => Raise(e)
      case Ok(code) =>
        match Index(status, "message")
        case Raise(e) => Raise(e)
        case Ok(message) =>
          match Index(request, "payload")
          case Raise(e) => Raise(e)
          case Ok(payload) =>
            match PayloadMessage(payload)
            case Raise(e) => Raise(e)
            case Ok(payloadMessage) => Classify(code, message, payloadMessage)
  }

  function Classify(code: Json, message: Json, payloadMessage: Json): Outcome<Advice> {
    match InSet(message, KNOWN_PERMISSION_ERRORS)
    case Raise(e) => Raise(e)
    case Ok(true) => Ok(Advice(ENABLE_PERMISSION, Some(SCOPE)))
    case Ok(false) =>
      match InSet(message, KNOWN_INTEGRATION_OR_RUNTIME_ERRORS)
      case Raise(e) => Raise(e)
      case Ok(true) =>
        (match MerchantError(code, message, payloadMessage)
         case Raise(e) => Raise(e)
         case Ok(text) => Ok(Advice(text, None)))
      case Ok(false) => Ok(Advice(ERROR_UNKNOWN, None))
  }

  /** The `statement` built from the advice. The statement class of the framework version this
      model covers has no `consent_card` method, so asking for a consent card raises
      `AttributeError`. */
  function Speak(advice: Advice): (r: Outcome<string>)
    ensures advice.consentScope.None? <==> r.Ok?
    ensures r.Ok? ==> r.value == advice.speech
  {
    if advice.consentScope.Some? then Raise(AttributeError) else Ok(advice.speech)
  }

  /** `handleErrors`: the statement's speech. */
  function HandleErrors(request: Json): (r: Outcome<string>)
    ensures ErrorAdvice(request).Raise? ==> r == Raise(ErrorAdvice(request).error)
    ensures ErrorAdvice(request).Ok? ==> (r.Ok? <==> ErrorAdvice(request).value.consentScope.None?)
    ensures ErrorAdvice(request).Ok? && ErrorAdvice(request).value.consentScope.Some? ==> r == Raise(AttributeError)
    ensures r.Ok? ==> ErrorAdvice(request).Ok? && r.value == ErrorAdvice(request).value.speech
  {
    match ErrorAdvice(request)
    case Raise(e) => Raise(e)
    case Ok(advice) => Speak(advice)
  }

  /** `handleBillingAgreementState`. */
  function HandleBillingAgreementState(billingAgreementStatus: Json): (r: Outcome<string>)
    ensures r.Raise? <==> !Hashable(billingAgreementStatus)
    ensures r.Raise? ==> r.error == TypeError
    ensures billingAgreementStatus.JStr? && billingAgreementStatus.s in KNOWN_BILLING_STATES ==>
              r == Ok(ERROR_BILLING_AGREEMENT + billingAgreementStatus.s + ERROR_BILLING_AGREEMENT_MESSAGE)
    ensures Hashable(billingAgreementStatus) && !(billingAgreementStatus.JStr? && billingAgreementStatus.s in KNOWN_BILLING_STATES) ==>
              r == Ok(ERROR_UNKNOWN)
  {
    match InSet(billingAgreementStatus, KNOWN_BILLING_STATES)
    case Raise(e) => Raise(e)
    case Ok(true) => Ok(ERROR_BILLING_AGREEMENT + billingAgreementStatus.s + ERROR_BILLING_AGREEMENT_MESSAGE)
    case Ok(false) => Ok(ERROR_UNKNOWN)
  }

  /** `handleAuthorizationDeclines`. */
  function HandleAuthorizationDeclines(authorizationStatusReasonCode: Json): (r: Outcome<string>)
    ensures r.Raise? <==> !Hashable(authorizationStatusReasonCode)
    ensures r.Raise? ==> r.error == TypeError
    ensures r.Ok? ==>
              r.value == if authorizationStatusReasonCode.JStr? && authorizationStatusReasonCode.s in KNOWN_DECLINE_REASONS
                         then AUTHORIZATION_DECLINE_MESSAGE else ERROR_UNKNOWN
  {
    match InSet(authorizationStatusReasonCode, KNOWN_DECLINE_REASONS)
    case Raise(e) => Raise(e)
    case Ok(true) => Ok(AUTHORIZATION_DECLINE_MESSAGE)
    case Ok(false) => Ok(ERROR_UNKNOWN)
  }

  // ---------------------------------------------------------------------------------------------
  // Properties

  /** A well-formed Amazon Pay response: a status with a code and a message, and a payload
      object. */
  predicate WellFormed(request: Json) {
    request.JDict? && "status" in request.fields && "payload" in request.fields
    && request.fields["status"].JDict? && "code" in request.fields["status"].fields
    && "message" in request.fields["status"].fields
    && request.fields["payload"].JDict?
  }

  function StatusMessage(request: Json): Json
    requires WellFormed(request)
  {
    request.fields["status"].fields["message"]
  }

  function StatusCode(request: Json): Json
    requires WellFormed(request)
  {
    request.fields["status"].fields["code"]
  }

  function Payload(request: Json): map<string, Json>
    requires WellFormed(request)
  {
    request.fields["payload"].fields
  }

  /** No status message belongs to two of the lists, so the order of the tests does not matter. */
  lemma KnownErrorListsDisjoint()
    ensures KNOWN_PERMISSION_ERRORS * KNOWN_INTEGRATION_OR_RUNTIME_ERRORS == {}
  {
  }

  /** A permission error asks for the permission message and a consent card for the payments
      scope, and no other status does. */
  lemma PermissionErrorAsksForConsent(request: Json)
    requires WellFormed(request) && Hashable(StatusMessage(request))
    ensures ErrorAdvice(request).Ok? ==>
      (ErrorAdvice(request).value.consentScope.Some? <==> StatusMessage(request).JStr? && StatusMessage(request).s in KNOWN_PERMISSION_ERRORS)
    ensures StatusMessage(request).JStr? && StatusMessage(request).s in KNOWN_PERMISSION_ERRORS ==>
      ErrorAdvice(request) == Ok(Advice(ENABLE_PERMISSION, Some(SCOPE)))
      && HandleErrors(request) == Raise(AttributeError)
  {
  }

  /** A known integration or runtime error with string fields is read out as the fixed
      concatenation; the payload message is `''` when the payload has no `errorMessage`. */
  lemma IntegrationErrorReadOut(request: Json)
    requires WellFormed(request) && StatusMessage(request).JStr? && StatusCode(request).JStr?
    requires StatusMessage(request).s in KNOWN_INTEGRATION_OR_RUNTIME_ERRORS
    requires "errorMessage" in Payload(request) ==> Payload(request)["errorMessage"].JStr?
    ensures var payloadMessage := if "errorMessage" in Payload(request) then Payload(request)["errorMessage"].s else "";
      HandleErrors(request) == Ok(
        ERROR_MESSAGE + ERROR_STATUS_CODE + StatusCode(request).s + "." + ERROR_STATUS_MESSAGE
        + StatusMessage(request).s + "." + ERROR_PAYLOAD_MESSAGE + payloadMessage)
  {
    KnownErrorListsDisjoint();
  }

  /** The read-out names the code first and the payload message last. */
  lemma MerchantErrorFrames(code: string, message: string, payloadMessage: string)
    ensures MerchantError(JStr(code), JStr(message), JStr(payloadMessage)).Ok?
    ensures StartsWith(MerchantError(JStr(code), JStr(message), JStr(payloadMessage)).value, ERROR_MESSAGE + ERROR_STATUS_CODE + code)
    ensures EndsWith(MerchantError(JStr(code), JStr(message), JStr(payloadMessage)).value, ERROR_PAYLOAD_MESSAGE + payloadMessage)
  {
    var r := MerchantError(JStr(code), JStr(message), JStr(payloadMessage)).value;
    var head := ERROR_MESSAGE + ERROR_STATUS_CODE + code;
    var tail := ERROR_PAYLOAD_MESSAGE + payloadMessage;
    var middle := "." + ERROR_STATUS_MESSAGE + message + ".";
    assert r == head + middle + tail;
    assert r[..|head|] == head;
    assert r[|r| - |tail|..] == tail;
  }

  /** Any other hashable status gets the generic message and no consent card. */
  lemma UnknownErrorGeneric(request: Json)
    requires WellFormed(request) && Hashable(StatusMessage(request))
    requires !(StatusMessage(request).JStr? && StatusMessage(request).s in KNOWN_PERMISSION_ERRORS + KNOWN_INTEGRATION_OR_RUNTIME_ERRORS)
    ensures ErrorAdvice(request) == Ok(Advice(ERROR_UNKNOWN, None))
    ensures HandleErrors(request) == Ok(ERROR_UNKNOWN)
  {
  }

  /** A response without a status, or whose status lacks a code or a message, raises before any
      message is chosen. */
  lemma MissingStatusRaises(request: Json)
    requires request.JDict?
    requires "status" !in request.fields
      || (request.fields["status"].JDict? && !("code" in request.fields["status"].fields && "message" in request.fields["status"].fields))
    ensures ErrorAdvice(request) == Raise(KeyError)
  {
  }

  /** Billing agreement states: the three known ones are named in the message, all else is
      unknown. */
  lemma BillingStates(status: Json)
    requires Hashable(status)
    ensures status.JStr? && status.s in KNOWN_BILLING_STATES ==>
      HandleBillingAgreementState(status) == Ok(ERROR_BILLING_AGREEMENT + status.s + ERROR_BILLING_AGREEMENT_MESSAGE)
    ensures !(status.JStr? && status.s in KNOWN_BILLING_STATES) ==> HandleBillingAgreementState(status) == Ok(ERROR_UNKNOWN)
    ensures HandleBillingAgreementState(status) == Ok(ERROR_UNKNOWN) <==> !(status.JStr? && status.s in KNOWN_BILLING_STATES)
  {
    if status.JStr? && status.s in KNOWN_BILLING_STATES {
      var m := ERROR_BILLING_AGREEMENT + status.s + ERROR_BILLING_AGREEMENT_MESSAGE;
      assert |ERROR_UNKNOWN| < |ERROR_BILLING_AGREEMENT| <= |m|;
    }
  }

  /** Decline reasons: the four known ones get the not-charged message, all else is unknown. */
  lemma DeclineReasons(reason: Json)
    requires Hashable(reason)
    ensures HandleAuthorizationDeclines(reason) ==
      Ok(if reason.JStr? && reason.s in KNOWN_DECLINE_REASONS then AUTHORIZATION_DECLINE_MESSAGE else ERROR_UNKNOWN)
    ensures AUTHORIZATION_DECLINE_MESSAGE != ERROR_UNKNOWN
  {
    assert |ERROR_UNKNOWN| < |AUTHORIZATION_DECLINE_MESSAGE|;
  }

  /** An unhashable value in any of the membership tests raises `TypeError`. */
  lemma UnhashableRaises(v: Json)
    requires !Hashable(v)
    ensures HandleBillingAgreementState(v) == Raise(TypeError)
    ensures HandleAuthorizationDeclines(v) == Raise(TypeError)
    ensures Classify(JStr(""), v, JStr("")) == Raise(TypeError)
  {
  }
}
