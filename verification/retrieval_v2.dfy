/**
 * The session-based (version 2) retrieval. The two process-wide
 * dictionaries of the server become an explicit `Store`; every handler is a
 * function from the store (and its inputs) to a response or error and the
 * next store. The background task is a single atomic transition that the
 * environment may fire after a session has been announced.
 */
module RetrievalV2 {
  import opened Wrappers
  import opened DataModel
  import opened ExampleData
  import opened Scan

  /**
   * The session dictionary and the per-session FIFO result lists, together
   * with the read-only corpus the background tasks scan.
   */
  datatype Store = Store(
    corpus: seq<WikipediaArticle>,
    sessions: map<Guid, RetrievalSession>,
    results: map<Guid, seq<Context>>)

  /** The store of a freshly started server: no sessions, the demonstration corpus. */
  const InitialStore: Store := Store(Corpus, map[], map[])

  /**
   * Errors the handlers raise: an unknown data source or session, a
   * session not yet DONE, and a session whose result list is missing.
   */
  datatype RetrievalError = InvalidDataSourceId | InvalidSessionId | RetrievalNotDone | MissingResultList

  /** A response or error together with the store after the call. */
  datatype Reply<T> = Reply(result: Result<T, RetrievalError>, store: Store)

  /** What the background task publishes, in order, and the store it leaves behind. */
  datatype TaskRun = TaskRun(published: seq<RetrievalSession>, store: Store)

  /**
   * The store invariant: both dictionaries have the same keys, every
   * session is filed under its own id, belongs to data source 0 and counts
   * progress in corpus items.
   */
  ghost predicate Wf(store: Store)
  {
    && store.sessions.Keys == store.results.Keys
    && forall id :: id in store.sessions ==>
         && store.sessions[id].id == id
         && store.sessions[id].dataSourceId == 0
         && store.sessions[id].progress.progressType == NUMBER_OF_ITEMS
         && store.sessions[id].progress.total == |store.corpus|
         && 0 <= store.sessions[id].progress.current <= |store.corpus|
  }

  /** No session in the store has reached DONE. */
  ghost predicate NoneDone(store: Store)
  {
    forall id :: id in store.sessions ==> store.sessions[id].state != DONE
  }

  const RetrievalInfos: seq<RetrievalInfo> := [
    RetrievalInfo("DEMO-1", "DEMO: Wikipedia Links", "Contains some links to Wikipedia articles.",
                  None, false, None, [])
  ]

  /** The retrieval processes of a data source; only data source 0 exists. */
  function GetRetrievalInfo(dataSourceId: int): (r: Result<seq<RetrievalInfo>, RetrievalError>)
    ensures r.Success? <==> dataSourceId == 0
    ensures r.Failure? ==> r.error == InvalidDataSourceId
    ensures r.Success? ==> |r.value| == 1 && r.value[0].id == "DEMO-1"
                           && !r.value[0].mustUseEriServerLlmProvider && r.value[0].embeddings == []
  {
    if dataSourceId != 0 then Failure(InvalidDataSourceId) else Success(RetrievalInfos)
  }

  /**
   * Announce a session under the supplied id (the source draws a new random
   * id) at the supplied time. The session starts NOT_STARTED with an empty
   * result list; an existing entry under the same id is overwritten.
   */
  function Announce(store: Store, dataSourceId: int, request: RetrievalRequest, id: Guid, createdAt: int)
    : (r: Reply<Guid>)
    ensures r.result.Success? <==> dataSourceId == 0
    ensures r.result.Failure? ==> r.result.error == InvalidDataSourceId && r.store == store
    ensures r.store.corpus == store.corpus
    ensures r.result.Success? ==>
              && r.result.value == id
              && r.store.sessions.Keys == store.sessions.Keys + {id}
              && r.store.results.Keys == store.results.Keys + {id}
              && r.store.sessions[id].id == id
              && r.store.sessions[id].createdAt == createdAt
              && r.store.sessions[id].state == NOT_STARTED
              && r.store.sessions[id].progress == RetrievalProgress(NUMBER_OF_ITEMS, 0, |store.corpus|)
              && r.store.sessions[id].retrievalTask.request == request
              && r.store.results[id] == []
    ensures forall k :: k != id && k in store.sessions ==> r.store.sessions[k] == store.sessions[k]
    ensures forall k :: k != id && k in store.results ==> r.store.results[k] == store.results[k]
  {
    if dataSourceId != 0 then Reply(Failure(InvalidDataSourceId), store)
    else
      var progress := RetrievalProgress(NUMBER_OF_ITEMS, 0, |store.corpus|);
      var session := RetrievalSession(id, createdAt, dataSourceId, NOT_STARTED, progress,
                                      PendingRetrieval(request));
      Reply(Success(id), store.(sessions := store.sessions[id := session], results := store.results[id := []]))
  }

  /**
   * The progress records the task publishes after its 1st, ..., k-th match:
   * copies of `snapshot` whose `current` is 1, ..., k.
   */
  function ProgressWrites(snapshot: RetrievalSession, k: nat): (r: seq<RetrievalSession>)
    ensures |r| == k
    ensures forall i :: 0 <= i < k ==>
              r[i] == snapshot.(progress := snapshot.progress.(current := i + 1))
  {
    seq(k, i requires 0 <= i < k => snapshot.(progress := snapshot.progress.(current := i + 1)))
  }

  /**
   * The background task of session `id`, run to completion in one step. It
   * does nothing for an unknown or DONE session; otherwise it publishes the
   * session as ONGOING, scans the corpus and appends one context per
   * accepted match to the session's result list, and after each match
   * republishes the session as it was read at the start, with `current` set
   * to the number of matches so far. It never publishes DONE.
   */
  function Retrieve(store: Store, id: Guid, request: RetrievalRequest): (r: TaskRun)
    ensures forall w :: w in r.published ==> w.state != DONE
    ensures r.store.corpus == store.corpus
    ensures r.store.sessions.Keys == store.sessions.Keys
    ensures r.store.results.Keys == store.results.Keys
    ensures forall k :: k != id && k in store.sessions ==> r.store.sessions[k] == store.sessions[k]
    ensures forall k :: k != id && k in store.results ==> r.store.results[k] == store.results[k]
    ensures id !in store.sessions || store.sessions[id].state == DONE ==> r == TaskRun([], store)
    ensures id in store.sessions && store.sessions[id].state != DONE ==>
              && |r.published| >= 1
              && r.published[0] == store.sessions[id].(state := ONGOING)
              && r.store.sessions[id] == r.published[|r.published| - 1]
  {
    if id !in store.sessions then TaskRun([], store)
    else
      var snapshot := store.sessions[id];
      if snapshot.state == DONE then TaskRun([], store)
      else
        var started := snapshot.(state := ONGOING);
        if id !in store.results then
          TaskRun([started], store.(sessions := store.sessions[id := started]))
        else
          var queue := store.results[id];
          var found := ScanFrom(store.corpus, request.latestUserPrompt, request.maxMatches, |queue|);
          var writes := [started] + ProgressWrites(snapshot, |found|);
          TaskRun(writes, store.(sessions := store.sessions[id := writes[|writes| - 1]],
                                 results := store.results[id := queue + ArticleContexts(found, FullScore)]))
  }

  /** The environment runs the detached task of session `id` with the request it was announced with. */
  function RunTask(store: Store, id: Guid): Store
  {
    if id !in store.sessions then store
    else Retrieve(store, id, store.sessions[id].retrievalTask.request).store
  }

  /** The state query: the stored `(state, progress)` pair of a known session. */
  function GetRetrievalState(store: Store, id: Guid): (r: Result<RetrievalStatus, RetrievalError>)
    ensures r.Success? <==> id in store.sessions
    ensures r.Failure? ==> r.error == InvalidSessionId
    ensures r.Success? ==> r.value.state == store.sessions[id].state
                           && r.value.progress == store.sessions[id].progress
  {
    if id !in store.sessions then Failure(InvalidSessionId)
    else Success(RetrievalStatus(store.sessions[id].state, store.sessions[id].progress))
  }

  /**
   * The process-step query: DONE for a DONE session, otherwise no action
   * needed; never a task for the client's LLM. The LLM response is ignored.
   */
  function QueryProcessStep(store: Store, id: Guid, llmResponse: Option<LLMResponse>)
    : (r: Result<RetrievalProcessStepResponse, RetrievalError>)
    ensures r.Success? <==> id in store.sessions
    ensures r.Failure? ==> r.error == InvalidSessionId
    ensures r.Success? ==>
              && (r.value.stepType == STEP_DONE <==> store.sessions[id].state == DONE)
              && r.value.stepType != ASK_LLM
              && r.value.llmTaskId == EmptyGuid
              && r.value.llmTask == None
  {
    if id !in store.sessions then Failure(InvalidSessionId)
    else if store.sessions[id].state == DONE then
      Success(RetrievalProcessStepResponse(STEP_DONE, EmptyGuid, None))
    else
      Success(RetrievalProcessStepResponse(NO_ACTION_NEEDED, EmptyGuid, None))
  }

  /** A page with no contexts in the given state. */
  function EmptyPage(state: RetrievalResultState): RetrievalResult
  {
    RetrievalResult(state, [], None, None, false)
  }

  /**
   * One page of results. Before DONE the caller is told to retry; once DONE
   * the head of the result list is removed and returned, one per call,
   * until the list is empty.
   */
  function GetResults(store: Store, id: Guid): (r: Reply<RetrievalResult>)
    ensures r.store.sessions == store.sessions && r.store.corpus == store.corpus
    ensures r.store.results.Keys == store.results.Keys
    ensures forall k :: k != id && k in store.results ==> r.store.results[k] == store.results[k]
    ensures r.result.Failure? <==> id !in store.sessions || (store.sessions[id].state == DONE && id !in store.results)
    ensures r.result.Failure? ==> r.store == store
    ensures r.result.Failure? && id !in store.sessions ==> r.result.error == InvalidSessionId
    ensures r.result.Success? && store.sessions[id].state != DONE ==>
              r.result.value == EmptyPage(PROCESS_STILL_ONGOING) && r.store == store
    ensures r.result.Success? && store.sessions[id].state == DONE && store.results[id] == [] ==>
              r.result.value == EmptyPage(NO_RESULTS_FOUND) && r.store == store
    ensures r.result.Success? && store.sessions[id].state == DONE && store.results[id] != [] ==>
              && r.result.value.state == RESULTS_READY
              && r.result.value.contexts == [store.results[id][0]]
              && store.results[id] == [store.results[id][0]] + r.store.results[id]
              && r.result.value.moreResultsAvailable == (r.store.results[id] != [])
  {
    if id !in store.sessions then Reply(Failure(InvalidSessionId), store)
    else if store.sessions[id].state != DONE then Reply(Success(EmptyPage(PROCESS_STILL_ONGOING)), store)
    else if id !in store.results then Reply(Failure(MissingResultList), store)
    else
      var queue := store.results[id];
      if |queue| == 0 then Reply(Success(EmptyPage(NO_RESULTS_FOUND)), store)
      else
        var rest := queue[1..];
        Reply(Success(RetrievalResult(RESULTS_READY, [queue[0]], None, None, |rest| > 0)),
              store.(results := store.results[id := rest]))
  }

  /**
   * The stream of server-sent events for the given content fragments: one
   * delta frame per fragment, with choice index 0, then the end marker.
   */
  function Frames(contents: seq<string>): (r: seq<StreamFrame>)
    ensures |r| == |contents| + 1
    ensures r[|contents|] == EndFrame
    ensures forall i :: 0 <= i < |contents| ==> r[i].DataFrame?
  {
    if |contents| == 0 then [EndFrame]
    else [DataFrame(ChatCompletionDeltaStreamLine([ChatCompletionChoice(0, ChatCompletionDelta(contents[0]))]))]
         + Frames(contents[1..])
  }

  /** The content fragments carried by a stream, read up to its first end marker. */
  function FrameContents(frames: seq<StreamFrame>): seq<string>
  {
    if |frames| == 0 || frames[0].EndFrame? then []
    else if |frames[0].line.choices| == 0 then FrameContents(frames[1..])
    else [frames[0].line.choices[0].delta.content] + FrameContents(frames[1..])
  }

  /** The content fragments the server's LLM produces; the demonstration server has none. */
  const CompletionContents: seq<string> := []

  /**
   * Chat completion for a session. Fails for an unknown session and for a
   * session not yet DONE; otherwise streams the completion frames. The
   * demonstration server has no content fragments, so the stream is the end
   * marker alone.
   */
  function ChatCompletion(store: Store, id: Guid, messages: seq<ChatMessage>)
    : (r: Result<seq<StreamFrame>, RetrievalError>)
    ensures r.Success? <==> id in store.sessions && store.sessions[id].state == DONE
    ensures id !in store.sessions ==> r == Failure(InvalidSessionId)
    ensures id in store.sessions && store.sessions[id].state != DONE ==> r == Failure(RetrievalNotDone)
    ensures r.Success? ==> |r.value| >= 1 && r.value[|r.value| - 1] == EndFrame
    ensures r.Success? ==> r.value == Frames(CompletionContents) && r.value == [EndFrame]
  {
    if id !in store.sessions then Failure(InvalidSessionId)
    else if store.sessions[id].state != DONE then Failure(RetrievalNotDone)
    else Success(Frames(CompletionContents))
  }
}
