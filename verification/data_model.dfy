/**
 * Records and enumerations exchanged by the retrieval and authentication
 * handlers. Fields that only the runtime interprets (the semaphore, the
 * float confidence score, JSON layout) are reduced to what the handlers
 * observe.
 */
module DataModel {
  import opened Wrappers

  /** A session or task identifier. `EmptyGuid` is the all-zero identifier. */
  datatype Guid = Guid(bits: nat)

  const EmptyGuid: Guid := Guid(0)

  /** Lifecycle of a retrieval session. */
  datatype RetrievalState = NOT_STARTED | ONGOING | DONE

  /** Position of a state in the lifecycle order NOT_STARTED < ONGOING < DONE. */
  function Rank(s: RetrievalState): (r: nat)
    ensures r <= 2
    ensures r == 2 <==> s == DONE
    ensures r == 0 <==> s == NOT_STARTED
  {
    match s
    case NOT_STARTED => 0
    case ONGOING => 1
    case DONE => 2
  }

  datatype RetrievalProgressType = PERCENTAGE | NUMBER_OF_ITEMS | CONTINUOUS

  /** Progress of a retrieval; `current` and `total` are ignored for CONTINUOUS. */
  datatype RetrievalProgress = RetrievalProgress(progressType: RetrievalProgressType, current: int, total: int)

  /** The body of a retrieval request; only the fields the handlers read. */
  datatype RetrievalRequest = RetrievalRequest(latestUserPrompt: string, maxMatches: int)

  /**
   * The detached background task of a session, represented by the request
   * it was started with; the environment decides when it runs.
   */
  datatype PendingRetrieval = PendingRetrieval(request: RetrievalRequest)

  /** One retrieval session. The semaphore of the source record is not modelled. */
  datatype RetrievalSession = RetrievalSession(
    id: Guid,
    createdAt: int,
    dataSourceId: int,
    state: RetrievalState,
    progress: RetrievalProgress,
    retrievalTask: PendingRetrieval)

  /** The `(state, progress)` pair returned by the state query. */
  datatype RetrievalStatus = RetrievalStatus(state: RetrievalState, progress: RetrievalProgress)

  datatype ContentType = NONE | UNKNOWN | TEXT | IMAGE | VIDEO | AUDIO | SPEECH

  /**
   * The confidence score of a context. The score is a float in the source;
   * the model only distinguishes an unset score from the constant 1.
   */
  datatype ConfidenceScore = UnsetScore | FullScore

  /** One retrieved match. */
  datatype Context = Context(
    name: string,
    category: string,
    path: string,
    confidenceScore: ConfidenceScore,
    contentType: ContentType,
    matchedContent: string,
    surroundingContent: seq<string>,
    links: seq<string>)

  /** The names of a list of contexts, in order. */
  function Names(cs: seq<Context>): (r: seq<string>)
    ensures |r| == |cs|
    ensures forall i :: 0 <= i < |cs| ==> r[i] == cs[i].name
  {
    seq(|cs|, i requires 0 <= i < |cs| => cs[i].name)
  }

  datatype Citation = Citation(title: string, url: string)

  datatype RetrievalResultState = UNKNOWN_RESULT | PROCESS_STILL_ONGOING | RESULTS_READY | NO_RESULTS_FOUND

  /** One page of results. */
  datatype RetrievalResult = RetrievalResult(
    state: RetrievalResultState,
    contexts: seq<Context>,
    conclusiveAnswer: Option<string>,
    citations: Option<seq<Citation>>,
    moreResultsAvailable: bool)

  datatype RetrievalProcessStepType = NO_ACTION_NEEDED | ASK_LLM | STEP_DONE

  /** A chat thread handed to the client's LLM, reduced to its content blocks. */
  datatype ChatThread = ChatThread(contentBlocks: seq<string>)

  datatype RetrievalProcessStepResponse = RetrievalProcessStepResponse(
    stepType: RetrievalProcessStepType,
    llmTaskId: Guid,
    llmTask: Option<ChatThread>)

  datatype LLMResponse = LLMResponse(llmTaskId: Guid, response: string)

  datatype ChatMessage = ChatMessage(content: string, role: string)

  datatype ChatCompletionDelta = ChatCompletionDelta(content: string)

  datatype ChatCompletionChoice = ChatCompletionChoice(index: int, delta: ChatCompletionDelta)

  datatype ChatCompletionDeltaStreamLine = ChatCompletionDeltaStreamLine(choices: seq<ChatCompletionChoice>)

  /**
   * One server-sent event of the chat-completion stream: a serialised delta
   * line, or the end marker whose text is `EndMarker`.
   */
  datatype StreamFrame = DataFrame(line: ChatCompletionDeltaStreamLine) | EndFrame

  const EndMarker: string := "data: [END]\n\n"

  /** Description of a retrieval process offered by a data source. */
  datatype RetrievalInfo = RetrievalInfo(
    id: string,
    name: string,
    description: string,
    link: Option<string>,
    mustUseEriServerLlmProvider: bool,
    parametersDescription: Option<map<string, string>>,
    embeddings: seq<string>)

  /** One searchable corpus item. */
  datatype WikipediaArticle = WikipediaArticle(title: string, url: string)
}

/** The fixed demonstration corpus every retrieval scans. */
module ExampleData {
  import opened DataModel

  /** The category every context built from the corpus carries. */
  const WikipediaCategory: string := "Wikipedia Article"

  /**
   * The context both retrieval handlers build for a matched article: its
   * title as name, its URL as path and matched content, and the given
   * confidence score.
   */
  function ArticleContext(a: WikipediaArticle, score: ConfidenceScore): Context
  {
    Context(a.title, WikipediaCategory, a.url, score, TEXT, a.url, [], [])
  }

  function ArticleContexts(items: seq<WikipediaArticle>, score: ConfidenceScore): (r: seq<Context>)
    ensures |r| == |items|
    ensures forall i :: 0 <= i < |items| ==> r[i] == ArticleContext(items[i], score)
  {
    seq(|items|, i requires 0 <= i < |items| => ArticleContext(items[i], score))
  }

  const Corpus: seq<WikipediaArticle> := [
    WikipediaArticle("Strategic foresight", "https://en.wikipedia.org/wiki/Strategic_foresight"),
    WikipediaArticle("Scenario planning", "https://en.wikipedia.org/wiki/Scenario_planning"),
    WikipediaArticle("Futures studies", "https://en.wikipedia.org/wiki/Futures_studies"),
    WikipediaArticle("Futures techniques", "https://en.wikipedia.org/wiki/Futures_techniques"),
    WikipediaArticle("Delphi method", "https://en.wikipedia.org/wiki/Delphi_method")
  ]
}
