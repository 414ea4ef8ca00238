/**
 * The request gateway `graphqlQuery`: one raw transport outcome is classified
 * into exactly one of a payload, a `RateLimitError` or a `ShopifyApiError`.
 *
 * The response is read as the code reads it: the JSON body's `data` field is
 * taken as the envelope, whose own `errors`, `extensions` and `data` fields are
 * inspected.
 */
module Gateway {
  import opened Wrappers
  import opened Errors

  /** A value thrown in JavaScript: one of the two application errors, any
      other `Error` (only its message matters here), or a value that is not an
      `Error` at all. */
  datatype Thrown = App(err: AppError) | PlainError(message: string) | NonError

  /** One entry of the envelope's `errors` list; `message` may be missing. */
  datatype GqlError = GqlError(message: Option<string>)

  datatype ThrottleStatus = ThrottleStatus(currentlyAvailable: Option<int>)
  datatype Cost = Cost(throttleStatus: Option<ThrottleStatus>)
  datatype Extensions = Extensions(cost: Option<Cost>)

  /** The object the code reads as the envelope; `None` fields are absent or null. */
  datatype Envelope<P> = Envelope(errors: Option<seq<GqlError>>, extensions: Option<Extensions>, data: Option<P>)

  /** The parsed JSON body; only its `data` field is read. */
  datatype Body<P> = Body(data: Option<Envelope<P>>)

  /** What the admin client and `response.json()` produce together: a body, or
      a thrown value (network failure, parse failure, ...). */
  datatype Transport<P> = Responded(body: Body<P>) | Threw(thrown: Thrown)

  const RateLimitMessage: string := "Shopify API rate limit exceeded"
  const GraphqlErrorPrefix: string := "GraphQL error: "
  const RequestFailedPrefix: string := "API request failed: "
  const UnknownErrorText: string := "Unknown error"

  /** The message of the TypeError JavaScript raises when `prop` is read from `undefined`. */
  function ReadOfUndefined(prop: string): string
  {
    "Cannot read properties of undefined (reading '" + prop + "')"
  }

  /** `Array.prototype.join`: the parts in order, `sep` between neighbours. */
  function Join(parts: seq<string>, sep: string): string
  {
    if |parts| == 0 then ""
    else if |parts| == 1 then parts[0]
    else parts[0] + sep + Join(parts[1..], sep)
  }

  /** Appending one part adds the separator and that part at the end. */
  lemma {:induction false} JoinSnoc(parts: seq<string>, p: string, sep: string)
    ensures Join(parts + [p], sep) == if parts == [] then p else Join(parts, sep) + sep + p
  {
    if |parts| > 1 {
      assert (parts + [p])[1..] == parts[1..] + [p];
      JoinSnoc(parts[1..], p, sep);
    } else if |parts| == 1 {
      assert (parts + [p])[1..] == [p];
    }
  }

  /** Joining splits at any inner position: the parts keep their original order. */
  lemma {:induction false} JoinSplit(parts: seq<string>, i: nat, sep: string)
    requires 0 < i < |parts|
    ensures Join(parts, sep) == Join(parts[..i], sep) + sep + Join(parts[i..], sep)
  {
    if i > 1 {
      assert parts[1..][..i - 1] == parts[..i][1..];
      assert parts[1..][i - 1..] == parts[i..];
      JoinSplit(parts[1..], i - 1, sep);
    } else {
      assert parts[..1] == [parts[0]];
      assert parts[1..] == parts[i..];
    }
  }

  /** `e.message` of each error, missing messages rendered as `join` renders `undefined`. */
  function Messages(errors: seq<GqlError>): (ms: seq<string>)
    ensures |ms| == |errors|
    ensures forall i :: 0 <= i < |errors| ==>
      ms[i] == (if errors[i].message.Some? then errors[i].message.value else "")
  {
    seq(|errors|, i requires 0 <= i < |errors| =>
      if errors[i].message.Some? then errors[i].message.value else "")
  }

  /** The message of the error thrown for an envelope carrying `errors`. */
  function GraphqlErrorMessage(errors: seq<GqlError>): string
  {
    GraphqlErrorPrefix + Join(Messages(errors), ", ")
  }

  /** `data.extensions?.cost?.throttleStatus?.currentlyAvailable`. */
  function CurrentlyAvailable<P>(env: Envelope<P>): (r: Option<int>)
    ensures r.Some? <==> env.extensions.Some? && env.extensions.value.cost.Some?
                         && env.extensions.value.cost.value.throttleStatus.Some?
                         && env.extensions.value.cost.value.throttleStatus.value.currentlyAvailable.Some?
    ensures r.Some? ==> r == env.extensions.value.cost.value.throttleStatus.value.currentlyAvailable
  {
    match env.extensions
    case None => None
    case Some(ext) =>
      match ext.cost
      case None => None
      case Some(cost) =>
        match cost.throttleStatus
        case None => None
        case Some(status) => status.currentlyAvailable
  }

  /** The body of the `try` block: what it returns or what it throws. */
  function TryBlock<P>(t: Transport<P>): Result<Option<P>, Thrown>
  {
    match t
    case Threw(e) => Failure(e)
    case Responded(body) =>
      match body.data
      case None =>
        // `data?.errors` is falsy; `data.extensions` then reads from undefined
        Failure(PlainError(ReadOfUndefined("extensions")))
      case Some(env) =>
        // an `errors` array is truthy even when empty
        if env.errors.Some? then Failure(App(ShopifyApiError(GraphqlErrorMessage(env.errors.value), None, None)))
        else if CurrentlyAvailable(env) == Some(0) then Failure(App(RateLimitError(RateLimitMessage)))
        else Success(env.data)
  }

  /** The `catch` block: the two application errors pass through, anything else
      becomes a `ShopifyApiError` saying the request failed. */
  function Wrap(e: Thrown): (r: AppError)
    ensures e.App? ==> r == e.err
    ensures r.RateLimitError? <==> e.App? && e.err.RateLimitError?
    ensures e.PlainError? ==> r == ShopifyApiError(RequestFailedPrefix + e.message, None, None)
    ensures e.NonError? ==> r == ShopifyApiError(RequestFailedPrefix + UnknownErrorText, None, None)
    ensures !e.App? ==> r.ShopifyApiError? && r.code.None? && r.userErrors.None?
                         && |r.message| >= |RequestFailedPrefix|
                         && r.message[..|RequestFailedPrefix|] == RequestFailedPrefix
  {
    match e
    case App(err) => err
    case PlainError(message) => ShopifyApiError(RequestFailedPrefix + message, None, None)
    case NonError => ShopifyApiError(RequestFailedPrefix + UnknownErrorText, None, None)
  }

  /** The envelope of a response, when there is one. */
  predicate HasEnvelope<P>(t: Transport<P>)
  {
    t.Responded? && t.body.data.Some?
  }

  /** `graphqlQuery(admin, query, variables)` once the admin client has produced `t`. */
  function GraphqlQuery<P>(t: Transport<P>): (r: Result<Option<P>, AppError>)
    // a thrown value is classified by the catch block alone
    ensures t.Threw? ==> r == Failure(Wrap(t.thrown))
    // a body without `data` fails as a failed request
    ensures t.Responded? && t.body.data.None? ==>
      r == Failure(ShopifyApiError(RequestFailedPrefix + ReadOfUndefined("extensions"), None, None))
    // errors win, whatever the throttle status says
    ensures HasEnvelope(t) && t.body.data.value.errors.Some? ==>
      r == Failure(ShopifyApiError(GraphqlErrorMessage(t.body.data.value.errors.value), None, None))
    // the only successes are responses without errors and with quota left
    ensures r.Success? <==> HasEnvelope(t) && t.body.data.value.errors.None?
                            && CurrentlyAvailable(t.body.data.value) != Some(0)
    ensures r.Success? ==> r.value == t.body.data.value.data
    // a rate limit either arrives thrown or is read from an error-free envelope
    ensures r.Failure? && r.error.RateLimitError? <==>
      (t.Threw? && t.thrown.App? && t.thrown.err.RateLimitError?)
      || (HasEnvelope(t) && t.body.data.value.errors.None? && CurrentlyAvailable(t.body.data.value) == Some(0))
    ensures r.Failure? && r.error.RateLimitError? && t.Responded? ==> r.error.message == RateLimitMessage
  {
    match TryBlock(t)
    case Success(v) => Success(v)
    case Failure(e) => Failure(Wrap(e))
  }

  /** An empty `errors` array is truthy: the call fails with a bare
      "GraphQL error: " even when the quota is exhausted. */
  lemma EmptyErrorsStillFail<P>(extensions: Option<Extensions>, data: Option<P>)
    ensures GraphqlQuery(Responded(Body(Some(Envelope(Some([]), extensions, data)))))
         == Failure(ShopifyApiError(GraphqlErrorPrefix, None, None))
  {
    assert Messages([]) == [];
    assert GraphqlErrorMessage([]) == GraphqlErrorPrefix + "" == GraphqlErrorPrefix;
    assert HasEnvelope(Responded(Body(Some(Envelope(Some([]), extensions, data)))));
  }

  /** One more error appends ", " and its message at the end of the message. */
  lemma ErrorAppendedLast(errors: seq<GqlError>, e: GqlError)
    requires errors != []
    ensures GraphqlErrorMessage(errors + [e])
         == GraphqlErrorMessage(errors) + ", " + (if e.message.Some? then e.message.value else "")
  {
    var m := if e.message.Some? then e.message.value else "";
    assert Messages(errors + [e]) == Messages(errors) + [m];
    JoinSnoc(Messages(errors), m, ", ");
  }

  /** The message of a `GraphQL error` lists the messages of the errors in
      their original order: it splits after any prefix of the error list. */
  lemma ErrorsJoinedInOrder<P>(env: Envelope<P>, i: nat)
    requires env.errors.Some? && 0 < i < |env.errors.value|
    ensures var r := GraphqlQuery(Responded(Body(Some(env))));
      r == Failure(ShopifyApiError(
        GraphqlErrorPrefix + Join(Messages(env.errors.value[..i]), ", ") + ", "
          + Join(Messages(env.errors.value[i..]), ", "), None, None))
  {
    var errs := env.errors.value;
    JoinSplit(Messages(errs), i, ", ");
    assert Messages(errs)[..i] == Messages(errs[..i]);
    assert Messages(errs)[i..] == Messages(errs[i..]);
    var a, b := Join(Messages(errs[..i]), ", "), Join(Messages(errs[i..]), ", ");
    assert GraphqlErrorMessage(errs) == GraphqlErrorPrefix + (a + ", " + b);
    assert GraphqlErrorPrefix + (a + ", " + b) == GraphqlErrorPrefix + a + ", " + b;
    assert HasEnvelope(Responded(Body(Some(env))));
  }
}
