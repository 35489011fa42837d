/** The webhook's reply as the generators read it. Nothing here talks to the network:
    the reply, or the fact that the call threw, is an input of the model. */
module Responses {
  import opened Wrappers

  /** A JSON value as `response.json()` yields it. Numbers are integers here; an object
      nested inside the reply is kept only as "some object". */
  datatype Json = Null | Bool(b: bool) | Num(n: int) | Str(s: string) | Arr(elems: seq<Json>) | Obj

  /** JavaScript truthiness of a JSON value. */
  predicate Truthy(v: Json) {
    match v
    case Null => false
    case Bool(b) => b
    case Num(n) => n != 0
    case Str(s) => s != []
    case Arr(_) => true
    case Obj => true
  }

  /** Truthiness of a property read such as `data.success`: a missing property is
      `undefined`, which is falsy. */
  predicate Present(field: Option<Json>) {
    field.Some? && Truthy(field.value)
  }

  /** The properties of the reply object that the image and video screens look at;
      `None` is a property the reply does not have. */
  datatype Reply = Reply(
    url: Option<Json>,
    success: Option<Json>,
    imageUrl: Option<Json>,
    videoUrl: Option<Json>,
    output: Option<Json>,
    tipo: Option<Json>,
    status: Option<Json>,
    message: Option<Json>)

  /** The result of `await fetch(...)` followed by `await response.json()`: either one
      of them threw, or the body decoded to a reply. */
  datatype Fetch = Threw | Answered(data: Reply)

  /** What a failed request shows the user: the reply's own `message`, the screen's
      generic failure text, or the connection-error text of the `catch` block. */
  datatype Notice = ServerMessage(text: Json) | GenericError | ConnectionError

  /** `data.message || "<generic text>"`. */
  function FailureNotice(r: Reply): (n: Notice)
    ensures n.ServerMessage? <==> Present(r.message)
    ensures n.ServerMessage? ==> Truthy(n.text) && r.message == Some(n.text)
    ensures !n.ServerMessage? ==> n == GenericError
  {
    if Present(r.message) then ServerMessage(r.message.value) else GenericError
  }
}
