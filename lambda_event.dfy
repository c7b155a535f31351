/**
 * What a Lambda handler sees and returns: the API Gateway event, decoded JSON
 * values, DynamoDB items as Python dicts, Python exceptions, and responses.
 */
module Lambda {
  import opened Wrappers

  /**
   * A decoded JSON value or a DynamoDB attribute. Other stands for floats,
   * lists and objects, which these handlers never look inside; it records
   * only their Python truthiness.
   */
  datatype Value = Null | Bool(b: bool) | Num(n: int) | Str(s: string) | Other(truthy: bool)

  /** Python's truth value of a decoded value. */
  predicate Truthy(v: Value) {
    match v
    case Null => false
    case Bool(b) => b
    case Num(n) => n != 0
    case Str(s) => s != ""
    case Other(t) => t
  }

  /** A DynamoDB item or a JSON object: a dict from attribute names to values. */
  type Item = map<string, Value>

  /** dict.get(key, default). */
  function Get(item: Item, key: string, default: Value): (v: Value)
    ensures key in item ==> v == item[key]
    ensures key !in item ==> v == default
  {
    if key in item then item[key] else default
  }

  /**
   * The Python exceptions these handlers can raise; ClientError and
   * BotoCoreError are the two families a DynamoDB call raises.
   */
  datatype PyError = KeyError | TypeError | AttributeError | JsonDecodeError | ClientError | BotoCoreError

  /** A Python computation that returns a value or raises. */
  datatype Outcome<T> = Ok(value: T) | Raised(error: PyError)

  /** An event key that may be missing, present with value None, or present. */
  datatype Slot<T> = Missing | NoneValue | Given(value: T)

  /**
   * The request body after json.loads: an object, some other JSON value, or
   * text that is not JSON.
   */
  datatype Body = Object(fields: Item) | NotAnObject | Malformed

  /**
   * The parts of an API Gateway proxy event the handlers read. `claims` is
   * requestContext.authorizer.claims: Missing when a key on that path is
   * missing, NoneValue when the first step that fails holds None.
   */
  datatype Event = Event(
    claims: Slot<map<string, string>>,
    pathParameters: Slot<map<string, string>>,
    queryStringParameters: Slot<map<string, string>>,
    body: Slot<Body>)

  /** One entry of a likes listing. */
  datatype Liker = Liker(userId: Value, displayName: Value)

  /** Response bodies. */
  datatype Payload =
    | Record(item: Item)
    | Records(items: seq<Item>)
    | Message(text: string)
    | LikeState(liked: bool, note: string)
    | Likers(likes: seq<Liker>, count: int)

  /**
   * Responses, named by their meaning. The handlers write some numbers
   * themselves: 201 (Created) and 409 (Conflict) through the response
   * builder, and create_post writes 400, 404, 500, 401 and 201 into its own
   * responses. Elsewhere BadRequest, NotFound, Forbidden and Success stand
   * for the number the response builder picks for error, not-found,
   * forbidden and success responses. Unhandled is an exception that escapes
   * to the error_handler decorator.
   */
  datatype Response =
    | Success(payload: Payload)
    | Created(payload: Payload)
    | BadRequest(message: string)
    | NotFound(message: string)
    | Forbidden(message: string)
    | Conflict(message: string)
    | Unauthorized(message: string)
    | ServerError(message: string)
    | Unhandled(error: PyError)
}
