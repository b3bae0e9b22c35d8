/** The client's error taxonomy and its three classifiers (`ShopifyClientPort.ts`).
    Every class of the source's error hierarchy is one tag of `ErrorClass`; an error
    object is the value `CustomError`, since its fields are assigned once, in the constructor. */
module ShopifyErrors {
  import opened Optional
  import opened Text
  import opened JsValue

  /** The concrete subclasses of `ShopifyClientErrorBase`, each with a fixed message and code. */
  datatype Kind =
    | Authorization
    | Input
    | Request
    | Payment
    | VariantNotFound
    | VariantNotAvailableForSale
    | General

  /** Which constructor built the error: `CustomError` itself, `ShopifyClientErrorBase`
      with a caller-chosen message and code, or one of the fixed subclasses. */
  datatype ErrorClass = Custom | ClientBase | Fixed(kind: Kind)

  /** `CustomErrorPayload`: every field is optional; `message` is accepted but never read. */
  datatype Payload = Payload(customCode: Option<string>, message: Option<string>, innerError: Value, contextData: Value)

  /** The payload `{ innerError, contextData }` that every classifier builds. */
  function Wrap(innerError: Value, contextData: Value): Payload {
    Payload(None, None, innerError, contextData)
  }

  datatype CustomError = CustomError(cls: ErrorClass, message: string, code: string, innerError: Value, contextData: Value)

  /** `ShopifyClientErrorBase.code`, the default code of the base class. */
  const BaseCode: string := "SHOPIFY_CLIENT_ERROR"

  /** The static `code` of each subclass. */
  function KindCode(k: Kind): string {
    match k
    case Authorization => "SHOPIFY_CLIENT.AUTHORIZATION_ERROR"
    case Input => "SHOPIFY_CLIENT.INPUT_ERROR"
    case Request => "SHOPIFY_CLIENT.REQUEST_ERROR"
    case Payment => "SHOPIFY_CLIENT.PAYMENT_ERROR"
    case VariantNotFound => "SHOPIFY_CLIENT.PRODUCT_VARIANT_NOT_FOUND"
    case VariantNotAvailableForSale => "SHOPIFY_CLIENT.PRODUCT_VARIANT_NOT_AVAILABLE_FOR_SALE"
    case General => "SHOPIFY_CLIENT.GENERAL_ERROR"
  }

  /** The message each subclass passes to its base constructor. */
  function KindMessage(k: Kind): string {
    match k
    case Authorization => "Shopify authorization error"
    case Input => "Shopify input error"
    case Request => "Shopify request error"
    case Payment => "Shopify payment error"
    case VariantNotFound => "Product variant not found"
    case VariantNotAvailableForSale => "Product variant not available for sale"
    case General => "General Shopify client error"
  }

  /** The code stored by the `CustomError` constructor: a truthy `customCode` is appended after a dot. */
  function ComposeCode(code: string, customCode: Option<string>): string {
    if customCode.Some? && customCode.value != "" then code + "." + customCode.value else code
  }

  /** The stored code always starts with the class code, and the custom code can be read back
      from what follows the dot; without a (non-empty) custom code nothing is added. */
  lemma ComposeCodeSplits(code: string, customCode: Option<string>)
    ensures IsPrefix(code, ComposeCode(code, customCode))
    ensures customCode.None? || customCode.value == "" <==> ComposeCode(code, customCode) == code
    ensures customCode.Some? && customCode.value != "" ==>
              ComposeCode(code, customCode)[|code|] == '.' &&
              ComposeCode(code, customCode)[|code| + 1..] == customCode.value
  {
    var r := ComposeCode(code, customCode);
    if customCode.Some? && customCode.value != "" {
      assert |r| > |code|;
    }
  }

  /** `new CustomError(message, code, payload)`. */
  function NewCustomError(message: string, code: string, payload: Payload): (e: CustomError)
    ensures e.cls == Custom && e.message == message
    ensures e.code == ComposeCode(code, payload.customCode)
    ensures e.innerError == payload.innerError && e.contextData == payload.contextData
  {
    CustomError(Custom, message, ComposeCode(code, payload.customCode), payload.innerError, payload.contextData)
  }

  /** `new ShopifyClientErrorBase(message, code?, payload)`: the code defaults to `BaseCode`. */
  function NewClientBaseError(message: string, code: Option<string>, payload: Payload): (e: CustomError)
    ensures e.cls == ClientBase && e.message == message
    ensures e.code == ComposeCode(code.GetOr(BaseCode), payload.customCode)
    ensures e.innerError == payload.innerError && e.contextData == payload.contextData
  {
    NewCustomError(message, code.GetOr(BaseCode), payload).(cls := ClientBase)
  }

  /** `new ShopifyAuthorizationError(payload)` and its siblings. */
  function NewShopifyError(k: Kind, payload: Payload): (e: CustomError)
    ensures e.cls == Fixed(k) && e.message == KindMessage(k)
    ensures e.code == ComposeCode(KindCode(k), payload.customCode)
    ensures e.innerError == payload.innerError && e.contextData == payload.contextData
  {
    NewClientBaseError(KindMessage(k), Some(KindCode(k)), payload).(cls := Fixed(k))
  }

  /** The subclass whose code `code` carries, with or without a `.customCode` suffix. */
  function KindOfCode(code: string): Option<Kind> {
    if ClassCodeMatches(Authorization, code) then Some(Authorization)
    else if ClassCodeMatches(Input, code) then Some(Input)
    else if ClassCodeMatches(Request, code) then Some(Request)
    else if ClassCodeMatches(Payment, code) then Some(Payment)
    else if ClassCodeMatches(VariantNotFound, code) then Some(VariantNotFound)
    else if ClassCodeMatches(VariantNotAvailableForSale, code) then Some(VariantNotAvailableForSale)
    else if ClassCodeMatches(General, code) then Some(General)
    else None
  }

  predicate ClassCodeMatches(k: Kind, code: string) {
    code == KindCode(k) || IsPrefix(KindCode(k) + ".", code)
  }

  /** The stored code identifies the subclass whatever custom code was supplied: no class code
      is another's code followed by a dot. */
  lemma KindOfCodeRecovers(k: Kind, customCode: Option<string>)
    ensures KindOfCode(NewShopifyError(k, Payload(customCode, None, Undefined, Undefined)).code) == Some(k)
  {
    var code := ComposeCode(KindCode(k), customCode);
    ComposeCodeSplits(KindCode(k), customCode);
    assert ClassCodeMatches(k, code);
    KindOfCodeIdentifies(k, code);
  }

  /** A code carrying class code `k` is mapped back to `k`: each class that `KindOfCode` tests
      before `k` is ruled out. */
  lemma KindOfCodeIdentifies(k: Kind, code: string)
    requires ClassCodeMatches(k, code)
    ensures KindOfCode(code) == Some(k)
  {
    match k
    case Authorization =>
    case Input =>
      CodesDisjoint(Authorization, k, code);
    case Request =>
      CodesDisjoint(Authorization, k, code); CodesDisjoint(Input, k, code);
    case Payment =>
      CodesDisjoint(Authorization, k, code); CodesDisjoint(Input, k, code);
      CodesDisjoint(Request, k, code);
    case VariantNotFound =>
      CodesDisjoint(Authorization, k, code); CodesDisjoint(Input, k, code);
      CodesDisjoint(Request, k, code); CodesDisjoint(Payment, k, code);
    case VariantNotAvailableForSale =>
      CodesDisjoint(Authorization, k, code); CodesDisjoint(Input, k, code);
      CodesDisjoint(Request, k, code); CodesDisjoint(Payment, k, code);
      CodesDisjoint(VariantNotFound, k, code);
    case General =>
      CodesDisjoint(Authorization, k, code); CodesDisjoint(Input, k, code);
      CodesDisjoint(Request, k, code); CodesDisjoint(Payment, k, code);
      CodesDisjoint(VariantNotFound, k, code); CodesDisjoint(VariantNotAvailableForSale, k, code);
  }

  /** A code that carries class code `k` agrees with it at the positions that tell the class
      codes apart: 15 and 16 (just after "SHOPIFY_CLIENT."), and 35 for the two variant codes. */
  lemma DistinguishingChars(k: Kind, code: string)
    requires ClassCodeMatches(k, code)
    ensures code[15] == KindCode(k)[15] && code[16] == KindCode(k)[16]
    ensures k == VariantNotFound || k == VariantNotAvailableForSale ==> code[35] == KindCode(k)[35]
  {
    var c := KindCode(k);
    assert |c| > 16;
    if code != c {
      assert code[..|c| + 1] == c + ".";
      assert code[..|c|] == c;
    }
    if k == VariantNotFound || k == VariantNotAvailableForSale {
      assert |c| > 35;
    }
  }

  /** No code carries two different class codes. */
  lemma CodesDisjoint(j: Kind, k: Kind, code: string)
    requires j != k
    requires ClassCodeMatches(k, code)
    ensures !ClassCodeMatches(j, code)
  {
    DistinguishingChars(k, code);
    if ClassCodeMatches(j, code) {
      DistinguishingChars(j, code);
      assert false;
    }
  }

  /** `getHttpShopifyError`: 401 and 403 are authorization errors, 400 and 404 input errors,
      402 a payment error, and every other status a general error. */
  function GetHttpShopifyError(error: Value, statusCode: int, contextData: Value): (e: CustomError)
    ensures e.cls == Fixed(Authorization) <==> statusCode == 401 || statusCode == 403
    ensures e.cls == Fixed(Input) <==> statusCode == 400 || statusCode == 404
    ensures e.cls == Fixed(Payment) <==> statusCode == 402
    ensures e.cls == Fixed(General) <==> statusCode !in {400, 401, 402, 403, 404}
    ensures e.cls.Fixed? && e.message == KindMessage(e.cls.kind) && e.code == KindCode(e.cls.kind)
    ensures e.innerError == error && e.contextData == contextData
  {
    var payload := Wrap(error, contextData);
    match statusCode
    case 401 => NewShopifyError(Authorization, payload)
    case 403 => NewShopifyError(Authorization, payload)
    case 400 => NewShopifyError(Input, payload)
    case 404 => NewShopifyError(Input, payload)
    case 402 => NewShopifyError(Payment, payload)
    case _ => NewShopifyError(General, payload)
  }

  /** `getGraphqlShopifyError`: only 403 is an authorization error, only 400 an input error,
      402 a payment error, and every other status, 401 and 404 included, a general error. */
  function GetGraphqlShopifyError(errors: seq<Value>, statusCode: int, contextData: Value): (e: CustomError)
    ensures e.cls == Fixed(Authorization) <==> statusCode == 403
    ensures e.cls == Fixed(Input) <==> statusCode == 400
    ensures e.cls == Fixed(Payment) <==> statusCode == 402
    ensures e.cls == Fixed(General) <==> statusCode !in {400, 402, 403}
    ensures e.cls.Fixed? && e.message == KindMessage(e.cls.kind) && e.code == KindCode(e.cls.kind)
    ensures e.innerError == Array(errors) && e.contextData == contextData
  {
    var payload := Wrap(Array(errors), contextData);
    match statusCode
    case 403 => NewShopifyError(Authorization, payload)
    case 400 => NewShopifyError(Input, payload)
    case 402 => NewShopifyError(Payment, payload)
    case _ => NewShopifyError(General, payload)
  }

  /** The two status tables disagree on exactly two statuses, 401 and 404, which the
      GraphQL classifier reports as general errors. */
  lemma HttpAndGraphqlDisagreeOnlyOn401And404(error: Value, errors: seq<Value>, statusCode: int, contextData: Value)
    ensures GetHttpShopifyError(error, statusCode, contextData).cls != GetGraphqlShopifyError(errors, statusCode, contextData).cls
            <==> statusCode == 401 || statusCode == 404
    ensures statusCode == 401 || statusCode == 404 ==> GetGraphqlShopifyError(errors, statusCode, contextData).cls == Fixed(General)
  {
  }

  /** `e.message` where `e` is one entry of a GraphQL `userErrors` array: present only when
      `e` is an object whose `message` property is a string. */
  function UserErrorMessage(e: Value): Option<string> {
    if e.Object? && "message" in e.fields && e.fields["message"].Str? then Some(e.fields["message"].s) else None
  }

  /** `e => e.message?.includes(needle)`: an absent message never matches. */
  predicate MessageIncludes(e: Value, needle: string) {
    var m := UserErrorMessage(e);
    m.Some? && Contains(m.value, needle)
  }

  /** `errors.some(e => e.message?.includes(needle))`, scanning from the left. */
  function SomeMessageIncludes(errors: seq<Value>, needle: string): (r: bool)
    ensures r <==> exists i :: 0 <= i < |errors| && MessageIncludes(errors[i], needle)
  {
    if errors == [] then false
    else if MessageIncludes(errors[0], needle) then true
    else
      var r := SomeMessageIncludes(errors[1..], needle);
      assert forall i :: 1 <= i < |errors| ==> errors[i] == errors[1..][i - 1];
      r
  }

  /** `getGraphqlShopifyUserError`: "variant not found" in any message wins over
      "not available for sale" in any message; everything else is a general error. */
  function GetGraphqlShopifyUserError(errors: seq<Value>, contextData: Value): (e: CustomError)
    ensures e.cls == Fixed(VariantNotFound) <==>
              exists i :: 0 <= i < |errors| && MessageIncludes(errors[i], "variant not found")
    ensures e.cls == Fixed(VariantNotAvailableForSale) <==>
              (forall i :: 0 <= i < |errors| ==> !MessageIncludes(errors[i], "variant not found")) &&
              exists i :: 0 <= i < |errors| && MessageIncludes(errors[i], "not available for sale")
    ensures e.cls == Fixed(General) <==>
              forall i :: 0 <= i < |errors| ==>
                !MessageIncludes(errors[i], "variant not found") && !MessageIncludes(errors[i], "not available for sale")
    ensures e.cls.Fixed? && e.message == KindMessage(e.cls.kind) && e.code == KindCode(e.cls.kind)
    ensures e.innerError == Array(errors) && e.contextData == contextData
  {
    var payload := Wrap(Array(errors), contextData);
    if SomeMessageIncludes(errors, "variant not found") then NewShopifyError(VariantNotFound, payload)
    else if SomeMessageIncludes(errors, "not available for sale") then NewShopifyError(VariantNotAvailableForSale, payload)
    else NewShopifyError(General, payload)
  }

  /** No classifier ever produces a request error (nor a base-class or plain custom error). */
  lemma ClassifiersNeverRequest(error: Value, errors: seq<Value>, statusCode: int, contextData: Value)
    ensures GetHttpShopifyError(error, statusCode, contextData).cls !in {Fixed(Request), Custom, ClientBase}
    ensures GetGraphqlShopifyError(errors, statusCode, contextData).cls !in {Fixed(Request), Custom, ClientBase}
    ensures GetGraphqlShopifyUserError(errors, contextData).cls !in {Fixed(Request), Custom, ClientBase}
  {
  }

  /** A message mentioning both phrases is reported as a missing variant. */
  lemma VariantNotFoundTakesPrecedence(contextData: Value)
    ensures var e := Object(map["message" := Str("variant not found; not available for sale")]);
            GetGraphqlShopifyUserError([e], contextData).cls == Fixed(VariantNotFound)
  {
    var e := Object(map["message" := Str("variant not found; not available for sale")]);
    ContainsAt("variant not found; not available for sale", "variant not found", 0);
    assert MessageIncludes(e, "variant not found");
  }
}
