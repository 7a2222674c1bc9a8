/**
 * The completion client (src/services/geminiService.ts): shapes the
 * conversation into the request of the hosted model, and shapes the
 * response, or the exception of the call, into a reply. The SDK call itself
 * is not modelled: its outcome is an input.
 */
module GeminiService {
  import opened Wrappers
  import opened Types

  // ---------------------------------------------------------------- request

  /** One part of a request turn. */
  datatype Part = Part(text: string)

  /** One request turn: `{ role, parts }`, role `"user"` or `"model"`. */
  datatype Content = Content(role: string, parts: seq<Part>)

  /** What `generateContent` is called with. */
  datatype GenerateRequest = GenerateRequest(
    model: string,
    contents: seq<Content>,
    systemInstruction: string,
    googleSearch: bool)

  const ModelName: string := "gemini-2.5-flash"

  const Preamble: string :=
    "You are a friendly and helpful AI assistant. You can perform web searches to find up-to-date information. Always cite your sources when using web search results. "

  const ContextHeader: string :=
    "\n\nAlso, prioritize information from the following context when it is relevant.\n---CONTEXT---\n"

  const ContextFooter: string := "\n---END CONTEXT---"

  /** The system instruction: the preamble, then the context block when `context` is non-empty. */
  function SystemInstruction(context: string): (r: string)
    ensures |Preamble| <= |r| && r[..|Preamble|] == Preamble
    ensures |r| == |Preamble| <==> context == []
  {
    Preamble + (if context != [] then ContextHeader + context + ContextFooter else [])
  }

  /** Recovers the context from a system instruction built by `SystemInstruction`. */
  function ContextOf(instruction: string): string {
    var from := |Preamble| + |ContextHeader|;
    if from + |ContextFooter| <= |instruction| then instruction[from..|instruction| - |ContextFooter|] else []
  }

  /** The context block is appended exactly when there is a context, and it carries that context. */
  lemma SystemInstructionCarriesContext(context: string)
    ensures ContextOf(SystemInstruction(context)) == context
    ensures context != [] ==>
      SystemInstruction(context)[|Preamble|..] == ContextHeader + context + ContextFooter
  {
  }

  /** Different contexts give different instructions. */
  lemma SystemInstructionInjective(c1: string, c2: string)
    ensures SystemInstruction(c1) == SystemInstruction(c2) ==> c1 == c2
  {
    SystemInstructionCarriesContext(c1);
    SystemInstructionCarriesContext(c2);
  }

  predicate IsPlaceholderText(m: ChatMessage) {
    m.text == PlaceholderText
  }

  /** `history.filter(msg => msg.text !== "...")`. */
  function KeptTurns(history: seq<ChatMessage>): (r: seq<ChatMessage>)
    ensures |r| <= |history|
    ensures forall m :: m in r ==> m in history && !IsPlaceholderText(m)
    ensures forall m :: m in history && !IsPlaceholderText(m) ==> m in r
  {
    if history == [] then []
    else (if IsPlaceholderText(history[0]) then [] else [history[0]]) + KeptTurns(history[1..])
  }

  /** The filter distributes over concatenation, so kept turns stay in their relative order. */
  lemma {:induction false} KeptTurnsAppend(a: seq<ChatMessage>, b: seq<ChatMessage>)
    ensures KeptTurns(a + b) == KeptTurns(a) + KeptTurns(b)
  {
    if a == [] {
      assert a + b == b;
    } else {
      assert (a + b)[0] == a[0];
      assert (a + b)[1..] == a[1..] + b;
      KeptTurnsAppend(a[1..], b);
    }
  }

  function ToContent(m: ChatMessage): Content {
    Content(if m.role == USER then "user" else "model", [Part(m.text)])
  }

  /** The request turns: the kept turns, each as one content with one part. */
  function ToContents(history: seq<ChatMessage>): (r: seq<Content>)
    ensures |r| == |KeptTurns(history)| <= |history|
    ensures forall i :: 0 <= i < |r| ==>
      && (r[i].role == "user" <==> KeptTurns(history)[i].role == USER)
      && (r[i].role == "user" || r[i].role == "model")
      && r[i].parts == [Part(KeptTurns(history)[i].text)]
  {
    var kept := KeptTurns(history);
    seq(|kept|, i requires 0 <= i < |kept| => ToContent(kept[i]))
  }

  /** Reads a request turn back as a chat message (it carries no sources). */
  function FromContent(c: Content): ChatMessage {
    ChatMessage(if c.role == "user" then USER else MODEL,
                if |c.parts| > 0 then c.parts[0].text else [],
                None)
  }

  function WithoutSources(m: ChatMessage): ChatMessage {
    m.(sources := None)
  }

  /** The request loses nothing of a kept turn but its sources. */
  lemma ContentsRoundTrip(history: seq<ChatMessage>)
    ensures |ToContents(history)| == |KeptTurns(history)|
    ensures forall i :: 0 <= i < |ToContents(history)| ==>
      FromContent(ToContents(history)[i]) == WithoutSources(KeptTurns(history)[i])
  {
  }

  /** A trailing pending turn never reaches the request. */
  lemma PlaceholderNeverSent(history: seq<ChatMessage>)
    ensures ToContents(history + [Placeholder]) == ToContents(history)
  {
    KeptTurnsAppend(history, [Placeholder]);
    assert KeptTurns([Placeholder]) == [];
    assert KeptTurns(history + [Placeholder]) == KeptTurns(history);
  }

  // --------------------------------------------------------------- response

  /** `chunk.web`, every field possibly absent. */
  datatype Web = Web(uri: Option<string>, title: Option<string>)

  datatype GroundingChunk = GroundingChunk(web: Option<Web>)

  datatype GroundingMetadata = GroundingMetadata(groundingChunks: Option<seq<GroundingChunk>>)

  datatype Candidate = Candidate(groundingMetadata: Option<GroundingMetadata>)

  /** The part of `GenerateContentResponse` the client reads. */
  datatype GenerateResponse = GenerateResponse(text: Option<string>, candidates: Option<seq<Candidate>>)

  /** How the awaited SDK call ended: a response, a thrown `Error`, or some other thrown value. */
  datatype CallOutcome =
    | Responded(response: GenerateResponse)
    | ThrewError(message: string)
    | ThrewOther

  /** `AIResponse`. */
  datatype AIResponse = AIResponse(text: string, sources: Option<seq<Source>>)

  const HistoryIssueText: string := "I'm sorry, there was an issue with the message history."
  const ErrorPrefix: string := "Sorry, I encountered an error: "
  const UnknownErrorText: string := "Sorry, I encountered an unknown error."

  /** `response.candidates?.[0]?.groundingMetadata?.groundingChunks`. */
  function GroundingChunks(response: GenerateResponse): Option<seq<GroundingChunk>> {
    match response.candidates
    case None => None
    case Some(cs) =>
      if |cs| == 0 then None
      else match cs[0].groundingMetadata
        case None => None
        case Some(md) => md.groundingChunks
  }

  /**
   * Only the first candidate's grounding is read: later candidates and the
   * response text never matter, and a response without candidates has none.
   */
  lemma FirstCandidateGrounds(text: Option<string>, first: Candidate, rest: seq<Candidate>)
    ensures GroundingChunks(GenerateResponse(text, Some([first] + rest)))
      == if first.groundingMetadata.Some? then first.groundingMetadata.value.groundingChunks else None
    ensures GroundingChunks(GenerateResponse(text, None)) == None
    ensures GroundingChunks(GenerateResponse(text, Some([]))) == None
  {
  }

  /** A chunk's `web` entry as a source, when it is present and both its uri and title are non-empty. */
  function AsSource(chunk: GroundingChunk): Option<Source> {
    match chunk.web
    case Some(Web(Some(uri), Some(title))) =>
      if uri != [] && title != [] then Some(Source(uri, title)) else None
    case _ => None
  }

  /** `chunks.map(c => c.web).filter(web => web && web.uri && web.title)`. */
  function KeepSources(chunks: seq<GroundingChunk>): (r: seq<Source>)
    ensures |r| <= |chunks|
    ensures forall s :: s in r ==> s.uri != [] && s.title != []
  {
    if chunks == [] then []
    else (match AsSource(chunks[0]) case Some(s) => [s] case None => []) + KeepSources(chunks[1..])
  }

  lemma {:induction false} KeepSourcesAppend(a: seq<GroundingChunk>, b: seq<GroundingChunk>)
    ensures KeepSources(a + b) == KeepSources(a) + KeepSources(b)
  {
    if a == [] {
      assert a + b == b;
    } else {
      assert (a + b)[0] == a[0];
      assert (a + b)[1..] == a[1..] + b;
      KeepSourcesAppend(a[1..], b);
    }
  }

  /** Every well-formed chunk yields its source, and every source comes from a well-formed chunk. */
  lemma {:induction false} KeepSourcesExact(chunks: seq<GroundingChunk>, s: Source)
    ensures s in KeepSources(chunks) <==> exists i :: 0 <= i < |chunks| && AsSource(chunks[i]) == Some(s)
  {
    if chunks != [] {
      KeepSourcesExact(chunks[1..], s);
      if s in KeepSources(chunks[1..]) {
        var i :| 0 <= i < |chunks[1..]| && AsSource(chunks[1..][i]) == Some(s);
        assert AsSource(chunks[i + 1]) == Some(s);
      }
      if exists i :: 0 <= i < |chunks| && AsSource(chunks[i]) == Some(s) {
        var i :| 0 <= i < |chunks| && AsSource(chunks[i]) == Some(s);
        if i > 0 { assert chunks[1..][i - 1] == chunks[i]; }
      }
    }
  }

  /** The citation rule on a concrete list: only the entry with both a uri and a title survives. */
  lemma CitationFilterExample()
    ensures KeepSources([
      GroundingChunk(Some(Web(Some("a"), Some("A")))),
      GroundingChunk(Some(Web(Some(""), Some("B")))),
      GroundingChunk(Some(Web(Some("c"), Some("")))),
      GroundingChunk(None)]) == [Source("a", "A")]
  {
  }

  /** `sources`: undefined without grounding chunks, otherwise the kept entries in order. */
  function ExtractSources(response: GenerateResponse): (r: Option<seq<Source>>)
    ensures r.None? <==> GroundingChunks(response).None?
    ensures r.Some? ==> r.value == KeepSources(GroundingChunks(response).value)
  {
    match GroundingChunks(response)
    case None => None
    case Some(chunks) => Some(KeepSources(chunks))
  }

  /** `response.text || ""`: the response's text, or the empty string when it has none. */
  function ReplyText(response: GenerateResponse): (r: string)
    ensures response.text.Some? ==> r == response.text.value
    ensures response.text.None? ==> r == []
  {
    response.text.GetOr([])
  }

  /** What one call of `sendMessageToAI` sends (nothing, on an empty history) and returns. */
  datatype Exchange = Exchange(request: Option<GenerateRequest>, reply: AIResponse)

  /**
   * `sendMessageToAI(history, context)`. It never throws: every outcome of the
   * SDK call becomes a reply. `outcome` is only consulted when a request is sent.
   */
  function SendMessageToAI(history: seq<ChatMessage>, context: string, outcome: CallOutcome): (r: Exchange)
    ensures r.request.Some? ==> r.request.value == GenerateRequest(ModelName, ToContents(history), SystemInstruction(context), true)
  {
    var contents := ToContents(history);
    if |contents| == 0 then
      Exchange(None, AIResponse(HistoryIssueText, None))
    else
      var reply := match outcome
        case Responded(response) => AIResponse(ReplyText(response), ExtractSources(response))
        case ThrewError(message) => AIResponse(ErrorPrefix + message, None)
        case ThrewOther => AIResponse(UnknownErrorText, None);
      Exchange(Some(GenerateRequest(ModelName, contents, SystemInstruction(context), true)), reply)
  }

  /** No turn of `history` survives the filter. */
  predicate AllPlaceholders(history: seq<ChatMessage>) {
    forall m :: m in history ==> IsPlaceholderText(m)
  }

  lemma KeptTurnsEmpty(history: seq<ChatMessage>)
    ensures KeptTurns(history) == [] <==> AllPlaceholders(history)
  {
  }

  /**
   * The service is called exactly when some turn survives the filter; when none
   * does, the reply is the fixed history-issue text without sources, whatever
   * the service would have answered.
   */
  lemma EmptyHistoryNotSent(history: seq<ChatMessage>, context: string, outcome: CallOutcome)
    ensures SendMessageToAI(history, context, outcome).request.None? <==> AllPlaceholders(history)
    ensures AllPlaceholders(history) ==>
      SendMessageToAI(history, context, outcome).reply == AIResponse(HistoryIssueText, None)
  {
    KeptTurnsEmpty(history);
  }

  /** On a response, the reply is its text (empty when absent) with the extracted sources. */
  lemma ReplyOnResponse(history: seq<ChatMessage>, context: string, response: GenerateResponse)
    requires !AllPlaceholders(history)
    ensures var reply := SendMessageToAI(history, context, Responded(response)).reply;
      && reply.text == (if response.text.Some? then response.text.value else [])
      && reply.sources == ExtractSources(response)
  {
  }

  /**
   * A thrown value becomes an apology; an `Error` carries its message after the
   * fixed prefix. Neither carries sources, and neither is the pending text, so
   * the conversation always ends in a finished model turn.
   */
  lemma ErrorsBecomeApologies(history: seq<ChatMessage>, context: string, outcome: CallOutcome)
    requires !outcome.Responded?
    ensures var reply := SendMessageToAI(history, context, outcome).reply;
      && reply.sources == None
      && reply.text != PlaceholderText
      && (AllPlaceholders(history) ==> reply.text == HistoryIssueText)
      && (!AllPlaceholders(history) ==>
            reply.text == if outcome.ThrewError? then ErrorPrefix + outcome.message else UnknownErrorText)
  {
    KeptTurnsEmpty(history);
    var reply := SendMessageToAI(history, context, outcome).reply;
    if !AllPlaceholders(history) && outcome.ThrewError? {
      assert reply.text[0] == ErrorPrefix[0];
    }
  }
}
