/** The values the FLUX command-line client handles once the HTTP layer is
    abstracted away: decoded JSON documents, the replies the API sends, and
    the Python exceptions the client can raise. */
module Values {

  datatype Option<+T> = None | Some(value: T)

  /** A decoded JSON document, split into int and float as Python's json
      module splits numbers. Floats are idealised as reals. */
  datatype Json =
    | Null
    | Bool(b: bool)
    | Int(i: int)
    | Float(r: real)
    | Str(s: string)
    | Arr(items: seq<Json>)
    | Obj(fields: map<string, Json>)

  /** Python truthiness: None, False, zero and empty strings, lists and
      dicts are false; everything else is true. */
  predicate Truthy(j: Json) {
    match j
    case Null => false
    case Bool(b) => b
    case Int(i) => i != 0
    case Float(r) => r != 0.0
    case Str(s) => s != ""
    case Arr(items) => items != []
    case Obj(fields) => fields != map[]
  }

  /** Dict lookup that falls back to a default for a missing key. */
  function Get(d: map<string, Json>, key: string, default: Json): Json {
    if key in d then d[key] else default
  }

  /** An optional Python int as it is serialised into a request body:
      a missing value becomes JSON null. */
  function IntOrNull(v: Option<int>): Json {
    match v
    case Some(n) => Int(n)
    case None => Null
  }

  /** The exceptions the client's logic can raise. */
  datatype Error =
    | UnknownModel(model: string)                  // ValueError: model outside the endpoint table
    | UnsupportedControlType(controlType: string)  // ValueError: control type outside its table
    | KeyError(key: string)                        // subscripting a dict with a missing key
    | TypeError                                    // subscripting a non-dict JSON value with a string
    | AttributeError                               // calling .get on a JSON value that is not a dict
    | ZeroDivisionError                            // img2img dividing by a zero original width or zero aspect ratio
    | RequestException                             // an HTTP request failed, or its body was not JSON

  /** A Python call either returns a value or raises. */
  datatype Result<+T> = Ok(value: T) | Raised(error: Error)

  /** The decoded JSON body of the reply to one HTTP request, or the failure
      of that request (network error, or a body that is not JSON). */
  datatype Reply = Received(body: Json) | RequestFailed
}
