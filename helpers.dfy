/**
 * Reading the API Gateway event (utils/helpers.py and the inline
 * `event.get('pathParameters', {}).get(...)` lookups of the post handlers).
 * Each accessor returns what the Python expression returns, or the exception
 * it raises.
 */
module Helpers {
  import opened Wrappers
  import opened Text
  import opened Lambda

  /**
   * `event['requestContext']['authorizer']['claims']['sub']`: a KeyError when
   * a step is missing, a TypeError when a step holds None.
   */
  function GetUserIdFromEvent(e: Event): (r: Outcome<string>)
    ensures r.Ok? <==> e.claims.Given? && "sub" in e.claims.value
    ensures r.Ok? ==> r.value == e.claims.value["sub"]
    ensures r.Raised? ==> r.error == (if e.claims.NoneValue? then TypeError else KeyError)
  {
    match e.claims
    case Missing => Raised(KeyError)
    case NoneValue => Raised(TypeError)
    case Given(claims) => if "sub" in claims then Ok(claims["sub"]) else Raised(KeyError)
  }

  /** `(event.get('queryStringParameters', {}) or {}).get(name, default)`. */
  function GetQueryParam(e: Event, name: string, default: string): (r: string)
    ensures e.queryStringParameters.Given? && name in e.queryStringParameters.value ==>
      r == e.queryStringParameters.value[name]
    ensures !(e.queryStringParameters.Given? && name in e.queryStringParameters.value) ==> r == default
  {
    match e.queryStringParameters
    case Missing => default
    case NoneValue => default
    case Given(params) => if name in params then params[name] else default
  }

  /**
   * `event['pathParameters'][name]`: a KeyError when either key is missing, a
   * TypeError when pathParameters is None.
   */
  function GetPathParam(e: Event, name: string): (r: Outcome<string>)
    ensures r.Ok? <==> e.pathParameters.Given? && name in e.pathParameters.value
    ensures r.Ok? ==> r.value == e.pathParameters.value[name]
    ensures r.Raised? ==> r.error == (if e.pathParameters.NoneValue? then TypeError else KeyError)
  {
    match e.pathParameters
    case Missing => Raised(KeyError)
    case NoneValue => Raised(TypeError)
    case Given(params) => if name in params then Ok(params[name]) else Raised(KeyError)
  }

  /**
   * `event.get('pathParameters', {}).get(name)`: None when either key is
   * missing; an AttributeError when pathParameters is None.
   */
  function OptionalPathParam(e: Event, name: string): (r: Outcome<Option<string>>)
    ensures r.Raised? <==> e.pathParameters.NoneValue?
    ensures r.Raised? ==> r.error == AttributeError
    ensures r.Ok? ==> (r.value.Some? <==> e.pathParameters.Given? && name in e.pathParameters.value)
    ensures r.Ok? && r.value.Some? ==> r.value.value == e.pathParameters.value[name]
  {
    match e.pathParameters
    case Missing => Ok(None)
    case NoneValue => Raised(AttributeError)
    case Given(params) => Ok(if name in params then Some(params[name]) else None)
  }


  /**
   * `json.loads(event.get('body', '{}'))` followed by the caller's first
   * `.get`: an absent body reads as {}, None is a TypeError, text that is not
   * JSON a JSONDecodeError, and JSON that is not an object has no `.get`.
   */
  function ParseRequestBody(e: Event): (r: Outcome<Item>)
    ensures e.body.Missing? ==> r == Ok(map[])
    ensures r.Ok? ==> e.body.Missing? || (e.body.Given? && e.body.value == Object(r.value))
    ensures e.body.NoneValue? ==> r == Raised(TypeError)
    ensures e.body == Given(NotAnObject) ==> r == Raised(AttributeError)
    ensures e.body == Given(Malformed) ==> r == Raised(JsonDecodeError)
  {
    match e.body
    case Missing => Ok(map[])
    case NoneValue => Raised(TypeError)
    case Given(b) =>
      match b
      case Object(fields) => Ok(fields)
      case NotAnObject => Raised(AttributeError)
      case Malformed => Raised(JsonDecodeError)
  }

  /**
   * `body.get(key, '').strip()`: the stripped text of a string, '' when the
   * key is absent, an AttributeError for any other JSON value (None included).
   */
  function StrippedField(body: Item, key: string): (r: Outcome<string>)
    ensures key !in body ==> r == Ok("")
    ensures key in body && body[key].Str? ==> r == Ok(Trim(Python, body[key].s))
    ensures r.Raised? <==> key in body && !body[key].Str?
    ensures r.Raised? ==> r.error == AttributeError
  {
    match Get(body, key, Str(""))
    case Str(s) => Ok(Trim(Python, s))
    case _ => Raised(AttributeError)
  }

  /**
   * `parse_request_body(event)` followed by `body.get(key, '').strip()`: the
   * stripped text of one body field, or the exception either step raises.
   */
  function StrippedBodyField(e: Event, key: string): (r: Outcome<string>)
    ensures e.body.Missing? ==> r == Ok("")
    ensures ParseRequestBody(e).Raised? ==> r == Raised(ParseRequestBody(e).error)
    ensures e.body.Given? && e.body.value.Object? ==> r == StrippedField(e.body.value.fields, key)
  {
    match ParseRequestBody(e)
    case Raised(err) => Raised(err)
    case Ok(body) => StrippedField(body, key)
  }
}
