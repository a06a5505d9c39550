/**
 * The conversation summarizer: the prompt built from the last twelve
 * messages, and the choice of the summary from the completion the model
 * service returns. The HTTP call itself is a parameter: its rejection, or
 * the response it resolves to.
 */
module Summarizer {
  import opened Wrappers
  import opened JsText

  /** The two fields of a message the summarizer reads. */
  datatype Said = Said(author: string, text: string)

  const Window: nat := 12
  const Instruction: string := "Summarize the chat below into 5 short bullets. Keep only facts/decisions."

  /** `${m.author}: ${m.text}` */
  function Line(m: Said): (r: string)
    ensures |r| == |m.author| + 2 + |m.text|
    ensures r[..|m.author|] == m.author && r[|m.author|..|m.author| + 2] == ": " && r[|m.author| + 2..] == m.text
  {
    m.author + ": " + m.text
  }

  function Lines(ms: seq<Said>): (r: seq<string>)
    ensures |r| == |ms|
    ensures forall i :: 0 <= i < |ms| ==> r[i] == Line(ms[i])
  {
    seq(|ms|, i requires 0 <= i < |ms| => Line(ms[i]))
  }

  /** The messages the summary is built from: the last `Window` of them, in order. */
  function Recent(ms: seq<Said>): (r: seq<Said>)
    ensures |r| == Min(Window, |ms|)
    ensures forall i :: 0 <= i < |r| ==> r[i] == ms[|ms| - |r| + i]
  {
    SliceFromEnd(ms, Window)
  }

  /** `messages.slice(-12).map(...).join('\n')` */
  function Body(ms: seq<Said>): (r: string)
    ensures ms == [] ==> r == ""
    ensures ms != [] ==> var first := Line(Recent(ms)[0]); |first| <= |r| && r[..|first|] == first
    ensures ms != [] ==> var last := Line(ms[|ms| - 1]); |last| <= |r| && r[|r| - |last|..] == last
  {
    var recent := Recent(ms);
    var lines := Lines(recent);
    if ms == [] then "" else
      JoinEnds(lines, "\n");
      assert recent[|recent| - 1] == ms[|ms| - 1];
      assert lines[|lines| - 1] == Line(ms[|ms| - 1]);
      Join(lines, "\n")
  }

  /** The instruction, a blank line, then the body. */
  function Prompt(ms: seq<Said>): (r: string)
    ensures |r| >= |Instruction| + 2
    ensures r[..|Instruction|] == Instruction && r[|Instruction|..|Instruction| + 2] == "\n\n"
    ensures r[|Instruction| + 2..] == Body(ms)
  {
    Instruction + "\n\n" + Body(ms)
  }

  predicate SingleLine(m: Said)
  {
    '\n' !in m.author && '\n' !in m.text
  }

  lemma LineHasNoBreak(m: Said)
    requires SingleLine(m)
    ensures '\n' !in Line(m)
  {
    assert Line(m) == m.author + (": " + m.text);
  }

  /**
   * When no author or text holds a line break, the body consists of exactly
   * one line per recent message, `author: text`, in order, separated by
   * single line breaks with none trailing.
   */
  lemma BodyLines(ms: seq<Said>)
    requires |ms| > 0
    requires forall i :: 0 <= i < |Recent(ms)| ==> SingleLine(Recent(ms)[i])
    ensures Split(Body(ms), '\n') == Lines(Recent(ms))
    ensures |Split(Body(ms), '\n')| == Min(Window, |ms|)
  {
    var rs := Lines(Recent(ms));
    forall i | 0 <= i < |rs| ensures '\n' !in rs[i] {
      LineHasNoBreak(Recent(ms)[i]);
    }
    SplitJoin(rs, '\n');
  }

  /** The summary depends on the last `Window` messages only. */
  lemma OnlyRecentMatter(ms: seq<Said>, older: seq<Said>)
    requires |ms| >= Window
    ensures Prompt(older + ms) == Prompt(ms)
  {
    var all := older + ms;
    assert Recent(all) == Recent(ms) by {
      assert all[|all| - Window..] == ms[|ms| - Window..];
    }
  }

  /** An empty conversation yields the bare instruction and blank line. */
  lemma EmptyPrompt()
    ensures Prompt([]) == Instruction + "\n\n"
  {
  }

  /** What `resp.json()` resolves to, as far as the summarizer reads it. */
  datatype CompletionBody =
    | NotJson                          // the promise rejects
    | JsonNull                         // `data.choices` throws
    | Parsed(content: Option<string>)  // `data.choices?.[0]?.message?.content`

  datatype CompletionResponse = CompletionResponse(ok: bool, body: CompletionBody)

  /** What the `fetch` of the completion settles to: a rejection, or a response. */
  datatype Completion = NetworkError | Responded(response: CompletionResponse)

  /** Why `summarize` rejects instead of returning a summary. */
  datatype Rejection = FetchRejected | BodyNotJson | BodyNull

  /**
   * The summary chosen from the completion: empty when the response is not
   * ok or carries no content, the trimmed content otherwise; a rejected
   * fetch, or a body that cannot be read, makes `summarize` reject.
   */
  function Choose(completion: Completion): (r: Result<string, Rejection>)
    ensures completion.NetworkError? ==> r == Failure(FetchRejected)
    ensures completion.Responded? ==>
      var resp := completion.response;
      && (!resp.ok ==> r == Success(""))
      && (resp.ok && resp.body.Parsed? && resp.body.content.None? ==> r == Success(""))
      && (resp.ok && resp.body.Parsed? && resp.body.content.Some? ==> r == Success(Trim(resp.body.content.value)))
      && (r.Failure? <==> resp.ok && !resp.body.Parsed?)
    ensures r.Success? ==> r.value == [] || (!IsWhite(r.value[0]) && !IsWhite(r.value[|r.value| - 1]))
  {
    match completion
    case NetworkError => Failure(FetchRejected)
    case Responded(resp) =>
      if !resp.ok then Success("")
      else match resp.body
        case NotJson => Failure(BodyNotJson)
        case JsonNull => Failure(BodyNull)
        case Parsed(content) =>
          match content
          case None => Success("")
          case Some(c) => var t := Trim(c); Success(if t == "" then "" else t)
  }
}
