/**
 * The values the cache adapter works on: request configurations, responses,
 * the persisted cache entry and the small optional/result wrappers used to
 * model `null`, `undefined` and thrown errors.
 */
module Types {

  /** A TypeScript `T | null` (or `T | undefined`). */
  datatype Option<+T> = None | Some(value: T)

  /** A value, or the error a JavaScript call would throw or a promise reject with. */
  datatype Result<+T, +E> = Success(value: T) | Failure(error: E)

  /**
   * A JavaScript value as it can appear in a request configuration or in a
   * response body. `undefined` is not a value here: an object property that
   * holds `undefined` is modelled as an absent key, which is how every read
   * in the adapter treats it and how the JSON round trip of the cache stores it.
   * Numbers are integers (floating point is not modelled).
   */
  datatype Value =
    | Null
    | Bool(b: bool)
    | Num(n: int)
    | Str(s: string)
    | Arr(elements: seq<Value>)
    | Obj(fields: map<string, Value>)

  /** A request configuration: the properties of the config object by name. */
  type Config = map<string, Value>

  /** Response headers in the iteration order of `Object.entries`. */
  type Headers = seq<(string, string)>

  /** A transport response (`AxiosResponse`). */
  datatype Response = Response(
    data: Value,
    status: int,
    statusText: string,
    headers: Headers,
    config: Config)

  /** Why a request did not produce a response. */
  datatype Failure =
    /** The transport rejected; the payload is its error, passed on untouched. */
    | TransportFailed(reason: string)
    /** `config.method` exists, is not `null` and is not a string, so calling
        `toLowerCase` on it throws a TypeError. */
    | MethodNotString

  /**
   * The `expiration` field of a persisted entry after `Number(...)`: either an
   * integer timestamp in milliseconds or something that converts to `NaN`.
   */
  datatype Expiration = At(ms: int) | NotANumber

  /** The persisted unit `{ expiration, value }` (`AxiosCacheObject`). */
  datatype Entry = Entry(expiration: Expiration, value: Response)
}
