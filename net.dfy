/** The client's view of one network call. Every call site awaits a Retrofit
    `Response` inside try/catch; the model replaces the call by its outcome:
    an exception, a non-2xx status, or a 2xx status with an optional body. */
module Net {
  import opened Text

  datatype Option<+T> = None | Some(value: T) {
    /** Kotlin's `?:` elvis operator. */
    function GetOr(default: T): T {
      match this
      case Some(v) => v
      case None => default
    }
  }

  /** What `response.errorBody()?.string()` gives: nothing, a text, or an
      exception (with its message) raised while reading. */
  datatype RawText = Absent | Present(text: string) | Unreadable(message: Option<string>)

  /** The outcome of one awaited call.
      Transport: the call (or reading its body) threw; `message` is `e.message`.
      Http: `response.isSuccessful` was false; `body()` is then null in Retrofit.
      Ok2xx: `response.isSuccessful` was true; `body` is `response.body()`. */
  datatype Outcome<+B> =
    | Transport(message: Option<string>)
    | Http(code: nat, errorBody: RawText)
    | Ok2xx(code: nat, body: Option<B>)

  /** The `{success, message, data}` envelope most endpoints answer with. */
  datatype Envelope<+D> = Envelope(success: bool, message: Option<string>, data: Option<D>)

  /** `response.isSuccessful && response.body()?.success == true`. */
  predicate Succeeded<D>(o: Outcome<Envelope<D>>) {
    o.Ok2xx? && o.body.Some? && o.body.value.success
  }

  /** `response.body()?.message`: only a 2xx response carries a body. */
  function BodyMessage<D>(o: Outcome<Envelope<D>>): Option<string> {
    if o.Ok2xx? && o.body.Some? then o.body.value.message else None
  }

  /** `response.body()?.data` of a successful call. */
  function Payload<D>(o: Outcome<Envelope<D>>): Option<D>
    requires Succeeded(o)
  {
    o.body.value.data
  }

  /** A transient message shown to the user: a literal text or a string
      resource whose text lives outside the code. */
  datatype Toast = Say(text: string) | SayResource(id: string)

  /** The `showToast("Error: ${e.message}")` of the catch blocks; a null
      message renders as "null". */
  function ErrorToast(message: Option<string>): Toast {
    Say("Error: " + message.GetOr("null"))
  }
}
