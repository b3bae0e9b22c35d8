/** The tool-level response envelopes (`utils/errorHandler.ts`). `JSON.stringify(v, null, 2)` is
    not modelled: it is the parameter `stringify`, an arbitrary function from value to text. */
module ErrorHandler {
  import opened Text
  import opened JsValue
  import opened ShopifyErrors

  /** What a tool's `catch` can receive: an instance of `CustomError` (or a subclass), another
      `Error` with its message, or any other thrown value. */
  datatype Caught = CustomThrown(err: CustomError) | ErrorThrown(message: string) | OtherThrown(value: Value)

  /** One content item, `{ type: "text", text }`. */
  datatype TextContent = TextContent(text: string)

  datatype ErrorResponse = ErrorResponse(content: seq<TextContent>, isError: bool)

  /** The success envelope has no `isError` field at all. */
  datatype SuccessResponse = SuccessResponse(content: seq<TextContent>)

  /** " (Code: c)" when the code is a non-empty string, else nothing. */
  function CodeSection(code: string): string {
    if code != "" then " (Code: " + code + ")" else ""
  }

  /** "\nContext: ..." when the context data is truthy, else nothing. */
  function ContextSection(contextData: Value, stringify: Value -> string): string {
    if Truthy(contextData) then "\nContext: " + stringify(contextData) else ""
  }

  /** "\nInner Error: ..." when the inner error is truthy, else nothing. */
  function InnerSection(innerError: Value, stringify: Value -> string): string {
    if Truthy(innerError) then "\nInner Error: " + stringify(innerError) else ""
  }

  /** The message `handleError` assembles. */
  function ErrorText(defaultMessage: string, error: Caught, stringify: Value -> string): string {
    match error
    case CustomThrown(e) =>
      defaultMessage + ": " + e.message + CodeSection(e.code)
        + ContextSection(e.contextData, stringify) + InnerSection(e.innerError, stringify)
    case ErrorThrown(message) => defaultMessage + ": " + message
    case OtherThrown(_) => defaultMessage
  }

  /** `handleError(defaultMessage, error)`: always an error envelope with exactly one text item,
      whose text starts with `defaultMessage`. */
  function HandleError(defaultMessage: string, error: Caught, stringify: Value -> string): (r: ErrorResponse)
    ensures r.isError && |r.content| == 1
    ensures r.content[0].text == ErrorText(defaultMessage, error, stringify)
    ensures IsPrefix(defaultMessage, r.content[0].text)
  {
    var text := ErrorText(defaultMessage, error, stringify);
    assert error.CustomThrown? ==> text[..|defaultMessage|] == defaultMessage;
    ErrorResponse([TextContent(text)], true)
  }

  /** `formatSuccess(data)`: one text item holding the serialised data. */
  function FormatSuccess(data: Value, stringify: Value -> string): (r: SuccessResponse)
    ensures |r.content| == 1 && r.content[0].text == stringify(data)
  {
    SuccessResponse([TextContent(stringify(data))])
  }

  /** A thrown value that is not an `Error` yields the default message and nothing else; a plain
      `Error` yields the default message, ": " and its own message. */
  lemma NonCustomErrorText(defaultMessage: string, message: string, value: Value, stringify: Value -> string)
    ensures HandleError(defaultMessage, OtherThrown(value), stringify).content[0].text == defaultMessage
    ensures HandleError(defaultMessage, ErrorThrown(message), stringify).content[0].text == defaultMessage + ": " + message
  {
  }

  /** For a `CustomError` the text starts with "defaultMessage: message", and with no truthy
      context or inner error it is that head followed by the code section alone. */
  lemma CustomErrorHead(defaultMessage: string, e: CustomError, stringify: Value -> string)
    ensures var text := HandleError(defaultMessage, CustomThrown(e), stringify).content[0].text;
            var head := defaultMessage + ": " + e.message;
            && IsPrefix(head, text)
            && (!Truthy(e.contextData) && !Truthy(e.innerError) ==> text == head + CodeSection(e.code))
  {
    var head := defaultMessage + ": " + e.message;
    var tail := CodeSection(e.code) + ContextSection(e.contextData, stringify) + InnerSection(e.innerError, stringify);
    assert ErrorText(defaultMessage, CustomThrown(e), stringify) == head + tail;
    PrefixOfConcat(head, tail);
  }

  /** The code section follows the head exactly when the code is non-empty: the sections
      after it start with a line break. */
  lemma CustomErrorCodeSection(defaultMessage: string, e: CustomError, stringify: Value -> string)
    ensures var text := HandleError(defaultMessage, CustomThrown(e), stringify).content[0].text;
            e.code != "" <==> IsPrefix(defaultMessage + ": " + e.message + " (Code: ", text)
  {
    CodeSectionMarker(defaultMessage + ": " + e.message, e.code,
                      ContextSection(e.contextData, stringify), InnerSection(e.innerError, stringify));
  }

  /** A head followed by a code section and then sections that each start with a line break
      continues with " (Code: " exactly when the code is non-empty. */
  lemma CodeSectionMarker(head: string, code: string, context: string, inner: string)
    requires context == [] || context[0] == '\n'
    requires inner == [] || inner[0] == '\n'
    ensures code != "" <==> IsPrefix(head + " (Code: ", head + CodeSection(code) + context + inner)
  {
    var marker := head + " (Code: ";
    var withCode := head + CodeSection(code);
    var text := withCode + context + inner;
    if code != "" {
      assert withCode == marker + (code + ")");
      PrefixOfConcat(marker, code + ")");
      PrefixExtends(marker, withCode, context);
      PrefixExtends(marker, withCode + context, inner);
    } else {
      assert withCode == head;
      if context != [] {
        assert text[|head|] == (head + context)[|head|] == '\n';
      } else if inner != [] {
        assert head + context == head;
        assert text[|head|] == '\n';
      }
    }
  }

  lemma PrefixExtends(p: string, s: string, t: string)
    requires IsPrefix(p, s)
    ensures IsPrefix(p, s + t)
  {
    assert (s + t)[..|p|] == s[..|p|];
  }

  lemma PrefixOfConcat(a: string, b: string)
    ensures IsPrefix(a, a + b)
  {
    assert (a + b)[..|a|] == a;
  }

  /** An error built by a subclass constructor without a custom code renders as its class
      message, its class code, then the context and inner-error sections. */
  lemma ShopifyErrorRendering(defaultMessage: string, k: Kind, innerError: Value, contextData: Value, stringify: Value -> string)
    ensures HandleError(defaultMessage, CustomThrown(NewShopifyError(k, Wrap(innerError, contextData))), stringify).content[0].text
            == defaultMessage + ": " + KindMessage(k) + CodeSection(KindCode(k))
               + ContextSection(contextData, stringify) + InnerSection(innerError, stringify)
    ensures CodeSection(KindCode(k)) == " (Code: " + KindCode(k) + ")"
  {
    assert |KindCode(k)| > 0;
  }

  /** What the user-error classifier raises always shows the wrapped errors (an array, hence
      truthy) in an inner-error section. */
  lemma ClassifiedUserErrorRendering(defaultMessage: string, errors: seq<Value>, contextData: Value, stringify: Value -> string)
    ensures var e := GetGraphqlShopifyUserError(errors, contextData);
            HandleError(defaultMessage, CustomThrown(e), stringify).content[0].text ==
              defaultMessage + ": " + KindMessage(e.cls.kind) + CodeSection(KindCode(e.cls.kind))
              + ContextSection(contextData, stringify) + ("\nInner Error: " + stringify(Array(errors)))
  {
    var e := GetGraphqlShopifyUserError(errors, contextData);
    assert e == NewShopifyError(e.cls.kind, Wrap(Array(errors), contextData));
    ShopifyErrorRendering(defaultMessage, e.cls.kind, Array(errors), contextData, stringify);
  }
}
