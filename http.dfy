/**
 * What a `fetch` call hands back to a screen. The backend is not modelled: a
 * reply is an input, either a response with its status and body text, or a
 * transport failure that makes `fetch` reject with an error message.
 */
module Http {
  import opened Wrappers
  import opened Json
  import opened JsValues

  datatype Reply = Response(status: int, body: string) | NetworkFailure(message: string)

  /** `res.ok`: a 2xx status. */
  predicate IsOk(r: Reply) {
    r.Response? && 200 <= r.status <= 299
  }

  /** `await res.json()`: `None` when the body is not JSON (the call throws). */
  function BodyJson(r: Reply): Option<Json>
    requires r.Response?
  {
    Parse(r.body)
  }

  /** The `message` of the SyntaxError `res.json()` throws; the wording is the platform's. */
  const SyntaxErrorMessage: string := "JSON Parse error"

  /** The `message` of the TypeError thrown by reading a property of `null`; the wording is the platform's. */
  const TypeErrorMessage: string := "Cannot read property of null"

  /** `Array.isArray(data) ? data : []`. */
  function ArrayOrEmpty(data: Json): seq<Json> {
    if data.JArr? then data.items else []
  }

  /**
   * `items.map(f)` where `f` may throw: `f` returns `None` for a throw, and
   * the whole map then throws.
   */
  function MapOrThrow<T>(items: seq<Json>, f: Json -> Option<T>): (r: Option<seq<T>>)
    ensures r.Some? <==> forall i :: 0 <= i < |items| ==> f(items[i]).Some?
    ensures r.Some? ==> |r.value| == |items| && forall i :: 0 <= i < |items| ==> f(items[i]) == Some(r.value[i])
  {
    if items == [] then Some([])
    else match f(items[0])
      case None => None
      case Some(x) =>
        match MapOrThrow(items[1..], f)
        case None =>
          assert forall i :: 1 <= i < |items| ==> items[1..][i - 1] == items[i];
          None
        case Some(xs) =>
          assert forall i :: 1 <= i < |items| ==> items[1..][i - 1] == items[i];
          Some([x] + xs)
  }

  /** How a list screen's load ends: the normalised list, a non-ok status with its body, or a thrown error. */
  datatype Fetched<T> = Fetched(items: seq<T>) | HttpFailed(status: int, body: string) | Threw(message: string)

  /**
   * A list load: a non-ok status stops with its body; otherwise the body is
   * read as JSON (a SyntaxError when it is not), a non-array counts as the
   * empty array and every element is normalised (a TypeError when one throws).
   */
  function FetchList<T>(reply: Reply, normalise: Json -> Option<T>): (r: Fetched<T>)
    ensures r.HttpFailed? <==> reply.Response? && !IsOk(reply)
    ensures reply.NetworkFailure? ==> r == Threw(reply.message)
    ensures r.Fetched? ==>
      IsOk(reply) && BodyJson(reply).Some? && |r.items| == |ArrayOrEmpty(BodyJson(reply).value)|
  {
    match reply
    case NetworkFailure(m) => Threw(m)
    case Response(status, body) =>
      if !IsOk(reply) then HttpFailed(status, body)
      else match Parse(body)
        case None => Threw(SyntaxErrorMessage)
        case Some(data) =>
          match MapOrThrow(ArrayOrEmpty(data), normalise)
          case None => Threw(TypeErrorMessage)
          case Some(xs) => Fetched(xs)
  }

  /**
   * An ok reply carrying an array replaces the list with one normalised entry
   * per element, in the same order; one carrying any other JSON value gives
   * the empty list.
   */
  lemma FetchListOk<T>(status: int, data: Json, normalise: Json -> Option<T>)
    requires 200 <= status <= 299
    requires forall i :: 0 <= i < |ArrayOrEmpty(data)| ==> normalise(ArrayOrEmpty(data)[i]).Some?
    ensures FetchList(Response(status, Serialize(data)), normalise).Fetched?
    ensures var xs := FetchList(Response(status, Serialize(data)), normalise).items;
      |xs| == |ArrayOrEmpty(data)| &&
      (forall i :: 0 <= i < |xs| ==> normalise(data.items[i]) == Some(xs[i])) &&
      (!data.JArr? ==> xs == [])
  {
    RoundTrip(data);
  }

  /** A reply that is not ok, or that fails in transport, never yields a list. */
  lemma FetchListFails<T>(reply: Reply, normalise: Json -> Option<T>)
    requires !IsOk(reply)
    ensures reply.Response? ==> FetchList(reply, normalise) == HttpFailed(reply.status, reply.body)
    ensures reply.NetworkFailure? ==> FetchList(reply, normalise) == Threw(reply.message)
  {
  }

  /** `let data = {}; try { data = await res.json() } catch {}`: the body's JSON, or `{}`. */
  function ResponseData(r: Reply): Json
    requires r.Response?
  {
    match Parse(r.body)
    case Some(v) => v
    case None => JObj([])
  }

  /** `(data && data.message) || fallback`, as the text the screen shows. */
  function ServerMessage(data: Json, fallback: string): (m: string)
    ensures data == JObj([]) || data == JNull ==> m == fallback
  {
    if !Truthy(Some(data)) then fallback
    else
      var message := Prop(Some(data), "message").value;
      if Truthy(message) then ToJsString(message.value) else fallback
  }

  /** A server message the body carries as a non-empty string is shown as sent. */
  lemma ServerMessageShown(message: string, fallback: string, status: int)
    requires message != ""
    ensures ServerMessage(ResponseData(Response(status, Serialize(JObj([Member("message", JStr(message))])))), fallback) == message
  {
    RoundTrip(JObj([Member("message", JStr(message))]));
  }
}
