/**
 * The BYOM SDK: resolution of the backend base URL, the shaping of the
 * `invoke` payload, the choice of error message on a failed
 * `registerProvider` or `invoke`, the mapping of an invocation outcome to
 * the assistant message the widget delivers, and the widget's own
 * registration state. Every HTTP exchange is a parameter: either the
 * network failure `fetch` rejects with, or the response it resolves to.
 */
module ByomSdk {
  import opened Wrappers
  import opened JsText
  import opened ChatTypes

  /** The value `BYOMProvider` puts in context; `hasOnError` says whether an `onError` callback was given. */
  datatype Context = Context(baseUrl: string, hasOnError: bool)

  /** A thrown JavaScript error: its `name` and its `message`. */
  datatype JsError = JsError(name: string, message: string)

  /** `new Error(message)` */
  function NewError(message: string): (e: JsError)
    ensures e.name == "Error" && e.message == message
    ensures ErrorString(e) == if message == "" then "Error" else "Error: " + message
  {
    JsError("Error", message)
  }

  /** `String(e)` for an error (`Error.prototype.toString`). */
  function ErrorString(e: JsError): (r: string)
    ensures e.message == "" ==> r == e.name
    ensures e.name == "" ==> r == e.message
    ensures e.name != "" && e.message != "" ==> r == e.name + ": " + e.message
  {
    if e.name == "" then e.message
    else if e.message == "" then e.name
    else e.name + ": " + e.message
  }

  const OutsideProvider: string := "useBYOM must be used within BYOMProvider"

  /**
   * `baseUrlOverride ?? ctx?.baseUrl`, then a throw if the result is
   * missing or empty. A given override wins even when it is empty, so an
   * empty override throws although the context has a base URL.
   */
  function ResolveBaseUrl(baseUrlOverride: Option<string>, ctx: Option<Context>): (r: Result<string, JsError>)
    ensures r.Success? ==> r.value != ""
    ensures baseUrlOverride.Some? ==>
      r == if baseUrlOverride.value != "" then Success(baseUrlOverride.value) else Failure(NewError(OutsideProvider))
    ensures baseUrlOverride.None? && ctx.Some? ==>
      r == if ctx.value.baseUrl != "" then Success(ctx.value.baseUrl) else Failure(NewError(OutsideProvider))
    ensures baseUrlOverride.None? && ctx.None? ==> r == Failure(NewError(OutsideProvider))
  {
    var baseUrl := match baseUrlOverride
      case Some(b) => Some(b)
      case None => if ctx.Some? then Some(ctx.value.baseUrl) else None;
    if baseUrl.None? || baseUrl.value == "" then Failure(NewError(OutsideProvider)) else Success(baseUrl.value)
  }

  /** The widget's `baseUrl ?? ctx?.baseUrl ?? ''`, which it passes to `useBYOM` as the override. */
  function WidgetBaseUrl(baseUrl: Option<string>, ctx: Option<Context>): (r: string)
    ensures baseUrl.Some? ==> r == baseUrl.value
    ensures baseUrl.None? && ctx.Some? ==> r == ctx.value.baseUrl
    ensures baseUrl.None? && ctx.None? ==> r == ""
  {
    match baseUrl
    case Some(b) => b
    case None => if ctx.Some? then ctx.value.baseUrl else ""
  }

  /** Passing the widget's resolved base as an override resolves exactly as the hook would on its own. */
  lemma WidgetResolvesLikeHook(baseUrl: Option<string>, ctx: Option<Context>)
    ensures ResolveBaseUrl(Some(WidgetBaseUrl(baseUrl, ctx)), ctx) == ResolveBaseUrl(baseUrl, ctx)
  {
  }

  /** What `fetch` settles to: a rejection with a network error, or a response. */
  datatype Fetched<R> = NetworkError(error: JsError) | Responded(response: R)

  /** The outcome of an SDK call and the error, if any, handed to the context's `onError`. */
  datatype Call<T> = Call(result: Result<T, JsError>, reported: Option<JsError>)

  /** `onError?.(err)` */
  function Report(ctx: Option<Context>, err: JsError): (r: Option<JsError>)
    ensures r.Some? <==> ctx.Some? && ctx.value.hasOnError
    ensures r.Some? ==> r.value == err
  {
    if ctx.Some? && ctx.value.hasOnError then Some(err) else None
  }

  // ---- registerProvider ----

  datatype ProviderKind = OpenAI | Http

  datatype ProviderConfig = ProviderConfig(apiKey: Option<string>, model: Option<string>, endpoint: Option<string>, systemPrompt: Option<string>)

  datatype RegisterArgs = RegisterArgs(userId: string, provider: ProviderKind, config: ProviderConfig)

  /**
   * The parts of the `register-provider` response the SDK reads; `text` is
   * what `res.text()` settles to: the body text, or the error it rejects with.
   */
  datatype RegisterResponse = RegisterResponse(ok: bool, statusText: string, text: Result<string, JsError>)

  /**
   * A non-ok response fails with the response text as message, or the
   * status text when the response text is empty, and reports it; a fetch
   * rejection, or a rejection of `res.text()`, propagates unreported.
   */
  function RegisterProvider(ctx: Option<Context>, fetched: Fetched<RegisterResponse>): (c: Call<()>)
    ensures fetched.NetworkError? ==> c == Call(Failure(fetched.error), None)
    ensures fetched.Responded? && fetched.response.ok ==> c == Call(Success(()), None)
    ensures fetched.Responded? && !fetched.response.ok && fetched.response.text.Failure? ==>
      c == Call(Failure(fetched.response.text.error), None)
    ensures fetched.Responded? && !fetched.response.ok && fetched.response.text.Success? ==>
      var res := fetched.response;
      var msg := if res.text.value != "" then res.text.value else res.statusText;
      c.result == Failure(NewError(msg)) && c.reported == Report(ctx, NewError(msg))
  {
    match fetched
    case NetworkError(e) => Call(Failure(e), None)
    case Responded(res) =>
      if res.ok then Call(Success(()), None)
      else
        match res.text
        case Failure(e) => Call(Failure(e), None)
        case Success(text) =>
          var err := NewError(if text != "" then text else res.statusText);
          Call(Failure(err), Report(ctx, err))
  }

  // ---- invoke ----

  datatype InvokeArgs = InvokeArgs(userId: string, conversationId: Option<string>, prompt: string, conversation: seq<Message>)

  datatype InvokeResult = InvokeResult(reply: string, meta: Option<Meta>)

  const SnapshotLimit: nat := 50

  /** `{ ...args, conversation: args.conversation.slice(-50) }` */
  function Payload(args: InvokeArgs): (p: InvokeArgs)
    ensures p.userId == args.userId && p.conversationId == args.conversationId && p.prompt == args.prompt
    ensures |p.conversation| == Min(SnapshotLimit, |args.conversation|)
    ensures forall i :: 0 <= i < |p.conversation| ==>
      p.conversation[i] == args.conversation[|args.conversation| - |p.conversation| + i]
  {
    args.(conversation := SliceFromEnd(args.conversation, SnapshotLimit))
  }

  /** A conversation already within the limit is sent whole, so shaping the payload twice changes nothing more. */
  lemma PayloadIdempotent(args: InvokeArgs)
    ensures Payload(Payload(args)) == Payload(args)
    ensures |args.conversation| <= SnapshotLimit ==> Payload(args) == args
  {
  }

  /** What `res.json().catch(() => null)` yields, as far as `invoke` reads it. */
  datatype ChatBody =
    | NotJson                        // parsing failed: `null`
    | JsonFalsy                      // parsed, but `null`, `false`, `0` or `""`
    | JsonObject(error: Option<string>, reply: string, meta: Option<Meta>)

  datatype ChatResponse = ChatResponse(ok: bool, statusText: string, body: ChatBody)

  /** The message of the error `invoke` throws: `json?.error || res.statusText`. */
  function InvokeErrorMessage(res: ChatResponse): (m: string)
    ensures res.body.JsonObject? && res.body.error.Some? && res.body.error.value != "" ==> m == res.body.error.value
    ensures !(res.body.JsonObject? && res.body.error.Some? && res.body.error.value != "") ==> m == res.statusText
  {
    match res.body
    case JsonObject(Some(e), _, _) => if e != "" then e else res.statusText
    case _ => res.statusText
  }

  /**
   * `invoke` succeeds with the response body when the response is ok and
   * its body is truthy JSON; otherwise it fails with `InvokeErrorMessage`
   * and reports that error. A fetch rejection propagates unreported.
   */
  function Invoke(ctx: Option<Context>, fetched: Fetched<ChatResponse>): (c: Call<InvokeResult>)
    ensures fetched.NetworkError? ==> c == Call(Failure(fetched.error), None)
    ensures fetched.Responded? ==>
      var res := fetched.response;
      (c.result.Success? <==> res.ok && res.body.JsonObject?)
      && (c.result.Success? ==> c.result.value == InvokeResult(res.body.reply, res.body.meta) && c.reported == None)
      && (c.result.Failure? ==>
            c.result.error == NewError(InvokeErrorMessage(res)) && c.reported == Report(ctx, c.result.error))
  {
    match fetched
    case NetworkError(e) => Call(Failure(e), None)
    case Responded(res) =>
      if !res.ok || !res.body.JsonObject? then
        var err := NewError(InvokeErrorMessage(res));
        Call(Failure(err), Report(ctx, err))
      else
        Call(Success(InvokeResult(res.body.reply, res.body.meta)), None)
  }

  // ---- ByomWidget ----

  /** The argument of `onAssistantMessage`. */
  datatype AssistantReply = AssistantReply(text: string, meta: Option<Meta>)

  /** `handleInvoke`'s mapping: forward `reply` and `meta`, or `String(e)` with no meta. */
  function Deliver(outcome: Result<InvokeResult, JsError>): (r: AssistantReply)
    ensures outcome.Success? ==> r.text == outcome.value.reply && r.meta == outcome.value.meta
    ensures outcome.Failure? ==> r.text == ErrorString(outcome.error) && r.meta == None
  {
    match outcome
    case Success(res) => AssistantReply(res.reply, res.meta)
    case Failure(e) => AssistantReply(ErrorString(e), None)
  }

  /** One `handleInvoke`: the payload posted, the reply delivered and the error reported, if any. */
  datatype Exchange = Exchange(sent: InvokeArgs, delivered: AssistantReply, reported: Option<JsError>)

  function HandleInvoke(ctx: Option<Context>, userId: string, conversationId: string,
                        prompt: string, snapshot: seq<Message>, fetched: Fetched<ChatResponse>): (x: Exchange)
    ensures x.sent == Payload(InvokeArgs(userId, Some(conversationId), prompt, snapshot))
    ensures x.delivered == Deliver(Invoke(ctx, fetched).result) && x.reported == Invoke(ctx, fetched).reported
    ensures fetched.NetworkError? ==> x.delivered == AssistantReply(ErrorString(fetched.error), None) && x.reported == None
  {
    var call := Invoke(ctx, fetched);
    Exchange(Payload(InvokeArgs(userId, Some(conversationId), prompt, snapshot)), Deliver(call.result), call.reported)
  }

  /** A failed invocation shows the error as the assistant's text: `Error: <message>`, or `Error` alone. */
  lemma FailedInvokeText(ctx: Option<Context>, res: ChatResponse)
    requires !res.ok
    ensures var m := InvokeErrorMessage(res);
      Deliver(Invoke(ctx, Responded(res)).result) ==
        AssistantReply(if m == "" then "Error" else "Error: " + m, None)
  {
  }

  /** The widget's state: whether a provider is registered, whether the dialog is open, and the form fields. */
  class Widget {
    var registered: bool
    var open: bool
    var provider: ProviderKind
    var apiKey: string
    var model: string
    var endpoint: string
    var systemPrompt: string

    constructor ()
      ensures !registered && !open && provider == OpenAI
      ensures apiKey == "" && model == "" && endpoint == "" && systemPrompt == ""
    {
      registered, open, provider := false, false, OpenAI;
      apiKey, model, endpoint, systemPrompt := "", "", "", "";
    }

    /** The arguments `handleRegister` sends: every form field, whichever provider is chosen. */
    function RegisterRequest(userId: string): (a: RegisterArgs)
      reads this
      ensures a.userId == userId && a.provider == provider
      ensures a.config == ProviderConfig(Some(apiKey), Some(model), Some(endpoint), Some(systemPrompt))
    {
      RegisterArgs(userId, provider, ProviderConfig(Some(apiKey), Some(model), Some(endpoint), Some(systemPrompt)))
    }

    /** The "BYOM" button: `setOpen(true)`. */
    method OpenDialog()
      modifies this
      ensures open && registered == old(registered)
      ensures provider == old(provider) && apiKey == old(apiKey) && model == old(model)
      ensures endpoint == old(endpoint) && systemPrompt == old(systemPrompt)
    {
      open := true;
    }

    /** The "Close" button: `setOpen(false)`. */
    method CloseDialog()
      modifies this
      ensures !open && registered == old(registered)
      ensures provider == old(provider) && apiKey == old(apiKey) && model == old(model)
      ensures endpoint == old(endpoint) && systemPrompt == old(systemPrompt)
    {
      open := false;
    }

    /**
     * `handleRegister`: on success the widget is registered and the dialog
     * closed; on failure the error is only logged and nothing changes.
     */
    method HandleRegister(ctx: Option<Context>, userId: string, fetched: Fetched<RegisterResponse>)
      returns (sent: RegisterArgs, reported: Option<JsError>)
      modifies this
      ensures sent == old(RegisterRequest(userId))
      ensures reported == RegisterProvider(ctx, fetched).reported
      ensures RegisterProvider(ctx, fetched).result.Success? ==> registered && !open
      ensures RegisterProvider(ctx, fetched).result.Failure? ==> registered == old(registered) && open == old(open)
      ensures provider == old(provider) && apiKey == old(apiKey) && model == old(model)
      ensures endpoint == old(endpoint) && systemPrompt == old(systemPrompt)
    {
      sent := RegisterRequest(userId);
      var call := RegisterProvider(ctx, fetched);
      reported := call.reported;
      if call.result.Success? {
        registered := true;
        open := false;
      }
    }
  }
}
