// Request and response shaping of `callGeminiAgent` (src/lib/geminiClient.js).
// The SDK call `generateContent` is an oracle `generate`: it receives the request
// and either returns a response (possibly `undefined`) or throws.
module Gemini {
  import opened Wrappers

  /** At most this many trailing messages are forwarded to the model. */
  const WindowSize: nat := 10
  const ModelName := "gemini-2.0-flash"

  /** An application chat message as handed to the client: `{ role, content }`. */
  datatype ChatMessage = ChatMessage(role: string, content: string)

  datatype Part = Part(text: string)
  datatype Content = Content(role: string, parts: seq<Part>)

  /** The arguments of `generateContent`; the sampling temperature is not modelled. */
  datatype Request = Request(model: string, systemInstruction: Option<Content>, contents: seq<Content>)

  /** One element of `resp.outputs`; `text` may be missing. */
  datatype Output = Output(text: Option<string>)

  /**
   * The SDK's response object: `text` may be null/undefined, and `outputs`
   * is `Some` only when it is an array.
   */
  datatype Response = Response(text: Option<string>, outputs: Option<seq<Output>>)

  /** The options object; a field left `undefined` takes its default. */
  datatype AgentArgs = AgentArgs(systemPrompt: Option<string>, messages: Option<seq<ChatMessage>>)

  /** `messages.slice(-10)`: the final min(10, n) elements, in their original order. */
  function Window<T>(s: seq<T>): (w: seq<T>)
    ensures |w| == if |s| <= WindowSize then |s| else WindowSize
    ensures w == s[|s| - |w|..]
  {
    if |s| <= WindowSize then s else s[|s| - WindowSize..]
  }

  /** Trimming twice is trimming once: a window already of at most 10 passes through unchanged. */
  lemma WindowIdempotent<T>(s: seq<T>)
    ensures |s| <= WindowSize ==> Window(s) == s
    ensures Window(Window(s)) == Window(s)
  {
  }

  /** The last element of the input is always the last element forwarded. */
  lemma WindowKeepsLast<T>(s: seq<T>)
    requires |s| > 0
    ensures |Window(s)| > 0 && Window(s)[|Window(s)| - 1] == s[|s| - 1]
  {
  }

  /** The SDK names the assistant's turns `model`; every other role is copied unchanged. */
  function GeminiRole(role: string): (r: string)
    ensures role == "assistant" ==> r == "model"
    ensures role != "assistant" ==> r == role
  {
    if role == "assistant" then "model" else role
  }

  /** One content entry per message, with a single part holding the message verbatim. */
  function ToContents(ms: seq<ChatMessage>): (cs: seq<Content>)
    ensures |cs| == |ms|
    ensures forall i :: 0 <= i < |ms| ==>
      cs[i] == Content(GeminiRole(ms[i].role), [Part(ms[i].content)])
  {
    seq(|ms|, i requires 0 <= i < |ms| => Content(GeminiRole(ms[i].role), [Part(ms[i].content)]))
  }

  /** The system instruction: a single `user` part holding the prompt, or none for an empty prompt. */
  function SystemInstruction(systemPrompt: string): (r: Option<Content>)
    ensures r.Some? <==> systemPrompt != ""
    ensures r.Some? ==> r.value == Content("user", [Part(systemPrompt)])
  {
    if systemPrompt != "" then Some(Content("user", [Part(systemPrompt)])) else None
  }

  /** The request `callGeminiAgent` sends, with the defaults `systemPrompt = ""` and `messages = []`. */
  function BuildRequest(args: AgentArgs): (r: Request)
    ensures r.model == ModelName
    ensures |r.contents| <= WindowSize
  {
    var prompt := args.systemPrompt.GetOr("");
    var last := Window(args.messages.GetOr([]));
    Request(ModelName, SystemInstruction(prompt), ToContents(last))
  }

  /**
   * What the request carries: the final min(10, n) messages in order, each as one
   * part with its role mapped, and a system instruction exactly when the prompt is non-empty.
   */
  lemma BuildRequestShape(args: AgentArgs)
    ensures var r := BuildRequest(args);
      var ms := args.messages.GetOr([]);
      && r.model == ModelName
      && |r.contents| == |Window(ms)|
      && (forall i :: 0 <= i < |r.contents| ==>
            var m := ms[|ms| - |r.contents| + i];
            r.contents[i] == Content(GeminiRole(m.role), [Part(m.content)]))
      && (r.systemInstruction.Some? <==> Present(args.systemPrompt))
      && (r.systemInstruction.Some? ==> r.systemInstruction.value == Content("user", [Part(args.systemPrompt.value)]))
  {
  }

  /** Omitted arguments give no contents and no system instruction. */
  lemma DefaultRequest()
    ensures BuildRequest(AgentArgs(None, None)) == Request(ModelName, None, [])
  {
  }

  /** The outputs' texts concatenated in order, with a missing text written as "". */
  function JoinOutputTexts(outputs: seq<Output>): (text: string)
    ensures (forall i :: 0 <= i < |outputs| ==> outputs[i].text.GetOr("") == "") ==> text == ""
  {
    if |outputs| == 0 then ""
    else JoinOutputTexts(outputs[..|outputs| - 1]) + outputs[|outputs| - 1].text.GetOr("")
  }

  /** The concatenation follows the order of the outputs. */
  lemma {:induction false} JoinOutputTextsAppend(a: seq<Output>, b: seq<Output>)
    ensures JoinOutputTexts(a + b) == JoinOutputTexts(a) + JoinOutputTexts(b)
    decreases |b|
  {
    if |b| > 0 {
      var b' := b[..|b| - 1];
      assert (a + b)[..|a + b| - 1] == a + b';
      JoinOutputTextsAppend(a, b');
    } else {
      assert a + b == a;
    }
  }

  /** When every output has a text, the result is those texts concatenated in order. */
  lemma {:induction false} JoinOutputTextsAllPresent(outputs: seq<Output>, texts: seq<string>)
    requires |texts| == |outputs|
    requires forall i :: 0 <= i < |outputs| ==> outputs[i].text == Some(texts[i])
    ensures JoinOutputTexts(outputs) == ConcatAll(texts)
    decreases |outputs|
  {
    if |outputs| > 0 {
      JoinOutputTextsAllPresent(outputs[..|outputs| - 1], texts[..|texts| - 1]);
    }
  }

  /** The plain concatenation of a sequence of strings. */
  function ConcatAll(texts: seq<string>): string
  {
    if |texts| == 0 then "" else ConcatAll(texts[..|texts| - 1]) + texts[|texts| - 1]
  }

  /**
   * The reply text: the response's `text` whenever it is set (even to ""), else the
   * joined output texts when `outputs` is an array, else "".
   */
  function ResponseText(resp: Option<Response>): (text: string)
    ensures resp.Some? && resp.value.text.Some? ==> text == resp.value.text.value
    ensures resp.Some? && resp.value.text.None? && resp.value.outputs.Some? ==>
      text == JoinOutputTexts(resp.value.outputs.value)
    ensures resp.None? || (resp.value.text.None? && resp.value.outputs.None?) ==> text == ""
  {
    match resp
    case None => ""
    case Some(r) =>
      match r.text
      case Some(t) => t
      case None => if r.outputs.Some? then JoinOutputTexts(r.outputs.value) else ""
  }

  /** An empty `text` is kept, not replaced by the outputs. */
  lemma EmptyTextIsKept(outputs: Option<seq<Output>>)
    ensures ResponseText(Some(Response(Some(""), outputs))) == ""
  {
  }

  /**
   * `callGeminiAgent(args)`: the reply text, or the thrown error's message.
   * `generate` stands for the SDK client (including a missing API key) and its
   * `generateContent` call.
   */
  function CallAgent(args: AgentArgs, generate: Request -> Result<Option<Response>, string>): (r: Result<string, string>)
    ensures generate(BuildRequest(args)).Failure? <==> r.Failure?
    ensures r.Failure? ==> r.error == generate(BuildRequest(args)).error
    ensures r.Success? ==> r.value == ResponseText(generate(BuildRequest(args)).value)
  {
    match generate(BuildRequest(args))
    case Failure(e) => Failure(e)
    case Success(resp) => Success(ResponseText(resp))
  }
}
