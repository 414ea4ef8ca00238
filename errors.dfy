/** The application's two error classes, as a closed tagged union. */
module Errors {
  import opened Wrappers

  /** One field-level validation error reported by the platform. */
  datatype UserError = UserError(field: seq<string>, message: string)

  /** The error kinds the gateway and the retry helper dispatch on. */
  datatype AppError =
    | ShopifyApiError(message: string, code: Option<string>, userErrors: Option<seq<UserError>>)
    | RateLimitError(message: string)
  {
    /** The `name` property each constructor sets. */
    function Name(): (n: string)
      ensures n == "ShopifyApiError" <==> ShopifyApiError?
      ensures n == "RateLimitError" <==> RateLimitError?
    {
      if ShopifyApiError? then "ShopifyApiError" else "RateLimitError"
    }
  }

  /** Message of a `RateLimitError` constructed without an argument. */
  const DefaultRateLimitMessage: string := "Rate limit exceeded"

  /** `new ShopifyApiError(message, code?, userErrors?)`. */
  function NewShopifyApiError(message: string, code: Option<string>, userErrors: Option<seq<UserError>>): (e: AppError)
    ensures e.ShopifyApiError? && e.Name() == "ShopifyApiError"
    ensures e.message == message && e.code == code && e.userErrors == userErrors
  {
    ShopifyApiError(message, code, userErrors)
  }

  /** `new RateLimitError(message?)`; `None` is a call that leaves the argument out. */
  function NewRateLimitError(message: Option<string>): (e: AppError)
    ensures e.RateLimitError? && e.Name() == "RateLimitError"
    ensures message.Some? ==> e.message == message.value
    ensures message.None? ==> e.message == DefaultRateLimitMessage
  {
    RateLimitError(if message.Some? then message.value else DefaultRateLimitMessage)
  }

  /** The two kinds are told apart by their names alone. */
  lemma NameDeterminesKind(a: AppError, b: AppError)
    ensures a.Name() == b.Name() <==> (a.ShopifyApiError? <==> b.ShopifyApiError?)
  {
    if a.ShopifyApiError? != b.ShopifyApiError? {
      assert a.Name()[0] != b.Name()[0];
    }
  }
}
