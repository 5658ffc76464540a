/**
 * Properties of the session store that relate several handler calls:
 * the store invariant, what the background task leaves behind, the
 * stale-snapshot regression, the unreachability of DONE, and the drain law
 * of result pagination.
 */
module SessionLaws {
  import opened Wrappers
  import opened DataModel
  import opened ExampleData
  import opened Scan
  import opened RetrievalV2
  import Retrieval
  import Text

  /** What the task does to a live session with a result list, spelled out. */
  lemma RetrieveEffect(store: Store, id: Guid, request: RetrievalRequest)
    requires id in store.sessions && store.sessions[id].state != DONE && id in store.results
    ensures var r := Retrieve(store, id, request);
            var snapshot := store.sessions[id];
            var queue := store.results[id];
            var found := ScanFrom(store.corpus, request.latestUserPrompt, request.maxMatches, |queue|);
            && r.store.results[id] == queue + ArticleContexts(found, FullScore)
            && r.published == [snapshot.(state := ONGOING)] + ProgressWrites(snapshot, |found|)
            && r.store.sessions[id]
               == if |found| == 0 then snapshot.(state := ONGOING)
                  else snapshot.(progress := snapshot.progress.(current := |found|))
  {
  }

  /**
   * On a live session the task appends the capped matches to the result
   * list, never beyond a positive cap, and publishes the number it appended
   * as the progress, within the corpus size.
   */
  lemma RetrieveQueueAndProgress(store: Store, id: Guid, request: RetrievalRequest)
    requires Wf(store)
    requires id in store.sessions && store.sessions[id].state != DONE
    ensures var r := Retrieve(store, id, request).store;
            var queue := store.results[id];
            var added := if request.maxMatches > 0
                         then Take(Matches(store.corpus, request.latestUserPrompt), Room(request.maxMatches, |queue|))
                         else Matches(store.corpus, request.latestUserPrompt);
            && r.results[id] == queue + ArticleContexts(added, FullScore)
            && (request.maxMatches > 0 && |queue| <= request.maxMatches ==> |r.results[id]| <= request.maxMatches)
            && r.sessions[id].progress.progressType == store.sessions[id].progress.progressType
            && r.sessions[id].progress.total == store.sessions[id].progress.total
            && (|added| > 0 ==> r.sessions[id].progress.current == |added|)
            && (|added| == 0 ==> r.sessions[id].progress == store.sessions[id].progress)
            && 0 <= r.sessions[id].progress.current <= r.sessions[id].progress.total
  {
    RetrieveEffect(store, id, request);
    ScanIsFilterThenCap(store.corpus, request.latestUserPrompt, request.maxMatches, |store.results[id]|);
  }

  /**
   * Announcing a session and letting its task run leaves exactly the capped
   * matches, in corpus order, in the result list, with the progress counting
   * them out of the corpus size, and the state query reports exactly that;
   * every other session is untouched.
   */
  lemma AnnounceThenRetrieve(store: Store, request: RetrievalRequest, id: Guid, createdAt: int)
    ensures var s1 := Announce(store, 0, request, id, createdAt).store;
            var s2 := RunTask(s1, id);
            var expected := ArticleContexts(Cap(Matches(store.corpus, request.latestUserPrompt), request.maxMatches), FullScore);
            && s2.results[id] == expected
            && (request.maxMatches > 0 ==> |s2.results[id]| <= request.maxMatches)
            && s2.sessions[id].progress == RetrievalProgress(NUMBER_OF_ITEMS, |expected|, |store.corpus|)
            && s2.sessions[id].state == (if expected == [] then ONGOING else NOT_STARTED)
            && GetRetrievalState(s2, id)
               == Success(RetrievalStatus(if expected == [] then ONGOING else NOT_STARTED,
                                          RetrievalProgress(NUMBER_OF_ITEMS, |expected|, |store.corpus|)))
            && (forall k :: k != id && k in store.sessions ==> s2.sessions[k] == store.sessions[k])
            && (forall k :: k != id && k in store.results ==> s2.results[k] == store.results[k])
  {
    var s1 := Announce(store, 0, request, id, createdAt).store;
    RetrieveEffect(s1, id, request);
    ScanFromEmptyIsCapOfMatches(store.corpus, request.latestUserPrompt, request.maxMatches);
  }

  /**
   * The synchronous retrieval and the session task agree: over the same
   * corpus, the session's result list holds the synchronous answer, except
   * that the task sets the confidence score; in particular the names agree.
   */
  lemma SynchronousAndSessionRetrievalAgree(store: Store, request: RetrievalRequest, id: Guid, createdAt: int)
    ensures var queued := RunTask(Announce(store, 0, request, id, createdAt).store, id).results[id];
            var direct := Retrieval.RetrieveFrom(store.corpus, request);
            && |queued| == |direct|
            && (forall i :: 0 <= i < |queued| ==> queued[i] == direct[i].(confidenceScore := FullScore))
            && Names(queued) == Names(direct)
  {
    AnnounceThenRetrieve(store, request, id, createdAt);
  }

  /**
   * The catalogue of retrieval processes and the announcement agree on the
   * data sources: a session can be announced for exactly the data source
   * that lists a retrieval process, and both reject every other one with
   * the same error.
   */
  lemma InfoAndAnnounceAgree(store: Store, dataSourceId: int, request: RetrievalRequest, id: Guid, createdAt: int)
    ensures GetRetrievalInfo(dataSourceId).Success?
            <==> Announce(store, dataSourceId, request, id, createdAt).result.Success?
    ensures GetRetrievalInfo(dataSourceId).Failure? ==>
              GetRetrievalInfo(dataSourceId).error == Announce(store, dataSourceId, request, id, createdAt).result.error
  {
  }

  /**
   * The stale snapshot: on a NOT_STARTED session whose scan appends at
   * least one context, the task first publishes ONGOING and then, with
   * every progress update, NOT_STARTED again, which is where it leaves the
   * session. The progress it publishes counts 1, 2, ... after the first write.
   */
  lemma StaleSnapshotRegresses(store: Store, id: Guid, request: RetrievalRequest)
    requires id in store.sessions && store.sessions[id].state == NOT_STARTED && id in store.results
    requires ScanFrom(store.corpus, request.latestUserPrompt, request.maxMatches, |store.results[id]|) != []
    ensures var r := Retrieve(store, id, request);
            && |r.published| >= 2
            && r.published[0].state == ONGOING
            && (forall i :: 1 <= i < |r.published| ==>
                  r.published[i].state == NOT_STARTED && r.published[i].progress.current == i)
            && Rank(r.published[1].state) < Rank(r.published[0].state)
            && r.store.sessions[id].state == NOT_STARTED
  {
    RetrieveEffect(store, id, request);
  }

  /**
   * A concrete instance of the regression: a prompt that is a corpus title
   * (for the demonstration corpus, "Delphi method") leaves the announced
   * session NOT_STARTED after its task has run, having published ONGOING on
   * the way and at least one progress update.
   */
  lemma StaleSnapshotExample(store: Store, article: WikipediaArticle, id: Guid, createdAt: int)
    requires article in store.corpus
    ensures var request := RetrievalRequest(article.title, 0);
            var s1 := Announce(store, 0, request, id, createdAt).store;
            var run := Retrieve(s1, id, request);
            && run.published[0].state == ONGOING
            && run.store.sessions[id].state == NOT_STARTED
            && run.store.sessions[id].progress.current >= 1
  {
    var request := RetrievalRequest(article.title, 0);
    var s1 := Announce(store, 0, request, id, createdAt).store;
    Text.ContainsSelfAndEmpty(Text.Fold(article.title), []);
    assert TitleMatches(request.latestUserPrompt, article);
    MatchesMembership(store.corpus, request.latestUserPrompt, article);
    ScanFromEmptyIsCapOfMatches(store.corpus, request.latestUserPrompt, 0);
    assert article in ScanFrom(s1.corpus, request.latestUserPrompt, 0, 0);
    StaleSnapshotRegresses(s1, id, request);
  }

  /** A store-changing request or task run, as the environment may issue it. */
  datatype Event =
    | AnnounceEvent(dataSourceId: int, request: RetrievalRequest, id: Guid, createdAt: int)
    | TaskEvent(id: Guid)
    | FetchEvent(id: Guid)

  /** The store after one event; errors leave it as it was. */
  function Step(store: Store, e: Event): Store
  {
    match e
    case AnnounceEvent(dataSourceId, request, id, createdAt) =>
      Announce(store, dataSourceId, request, id, createdAt).store
    case TaskEvent(id) => RunTask(store, id)
    case FetchEvent(id) => GetResults(store, id).store
  }

  /** The store after a sequence of events, applied from the first. */
  function Run(store: Store, events: seq<Event>): Store
    decreases |events|
  {
    if |events| == 0 then store else Run(Step(store, events[0]), events[1..])
  }

  /** Announcing keeps the store well formed and adds no DONE session. */
  lemma AnnouncePreservesInvariants(store: Store, dataSourceId: int, request: RetrievalRequest, id: Guid, createdAt: int)
    requires Wf(store) && NoneDone(store)
    ensures var s := Announce(store, dataSourceId, request, id, createdAt).store;
            Wf(s) && NoneDone(s)
  {
  }

  /** Running a task keeps the store well formed and marks no session DONE. */
  lemma RunTaskPreservesInvariants(store: Store, id: Guid)
    requires Wf(store) && NoneDone(store)
    ensures Wf(RunTask(store, id)) && NoneDone(RunTask(store, id))
  {
    if id in store.sessions {
      RetrieveQueueAndProgress(store, id, store.sessions[id].retrievalTask.request);
    }
  }

  /** Fetching results keeps the store well formed and marks no session DONE. */
  lemma GetResultsPreservesInvariants(store: Store, id: Guid)
    requires Wf(store) && NoneDone(store)
    ensures Wf(GetResults(store, id).store) && NoneDone(GetResults(store, id).store)
  {
  }

  /** Every event keeps the store well formed and no session DONE. */
  lemma StepPreservesInvariants(store: Store, e: Event)
    requires Wf(store) && NoneDone(store)
    ensures Wf(Step(store, e)) && NoneDone(Step(store, e))
  {
    match e
    case AnnounceEvent(dataSourceId, request, id, createdAt) =>
      AnnouncePreservesInvariants(store, dataSourceId, request, id, createdAt);
    case TaskEvent(id) => RunTaskPreservesInvariants(store, id);
    case FetchEvent(id) => GetResultsPreservesInvariants(store, id);
  }

  /** Any sequence of events keeps the store well formed and no session DONE. */
  lemma {:induction false} RunPreservesInvariants(store: Store, events: seq<Event>)
    requires Wf(store) && NoneDone(store)
    ensures Wf(Run(store, events)) && NoneDone(Run(store, events))
    decreases |events|
  {
    if |events| > 0 {
      StepPreservesInvariants(store, events[0]);
      RunPreservesInvariants(Step(store, events[0]), events[1..]);
    }
  }

  /**
   * No interleaving of announcements, task runs and result fetches from an
   * empty store ever marks a session DONE. Hence every state query reports a
   * state other than DONE with progress within its total, every result fetch answers
   * "still ongoing", every process-step poll answers "no action needed" and
   * every chat completion fails, for every session ever announced.
   */
  lemma DoneIsUnreachable(events: seq<Event>, id: Guid, llmResponse: Option<LLMResponse>, messages: seq<ChatMessage>)
    ensures var s := Run(InitialStore, events);
            id in s.sessions ==>
              && s.sessions[id].state != DONE
              && GetRetrievalState(s, id).Success?
              && GetRetrievalState(s, id).value.state != DONE
              && 0 <= GetRetrievalState(s, id).value.progress.current <= GetRetrievalState(s, id).value.progress.total
              && GetResults(s, id).result == Success(EmptyPage(PROCESS_STILL_ONGOING))
              && QueryProcessStep(s, id, llmResponse) == Success(RetrievalProcessStepResponse(NO_ACTION_NEEDED, EmptyGuid, None))
              && ChatCompletion(s, id, messages) == Failure(RetrievalNotDone)
  {
    RunPreservesInvariants(InitialStore, events);
  }

  /** The result of `n` successive result fetches and the store they leave. */
  datatype Drained = Drained(pages: seq<Result<RetrievalResult, RetrievalError>>, store: Store)

  function Drain(store: Store, id: Guid, n: nat): Drained
    decreases n
  {
    if n == 0 then Drained([], store)
    else
      var first := GetResults(store, id);
      var rest := Drain(first.store, id, n - 1);
      Drained([first.result] + rest.pages, rest.store)
  }

  /**
   * The drain law: on a DONE session holding n contexts, n fetches return
   * them one at a time in queue order, each saying whether more remain; the
   * list is then empty and the next fetch finds no results. Session records
   * are untouched.
   */
  lemma {:induction false} DrainLaw(store: Store, id: Guid)
    requires id in store.sessions && store.sessions[id].state == DONE && id in store.results
    ensures var queue := store.results[id];
            var d := Drain(store, id, |queue|);
            && |d.pages| == |queue|
            && (forall i :: 0 <= i < |queue| ==>
                  d.pages[i] == Success(RetrievalResult(RESULTS_READY, [queue[i]], None, None, i < |queue| - 1)))
            && d.store.sessions == store.sessions
            && id in d.store.results && d.store.results[id] == []
            && GetResults(d.store, id).result == Success(EmptyPage(NO_RESULTS_FOUND))
    decreases |store.results[id]|
  {
    var queue := store.results[id];
    if |queue| > 0 {
      var first := GetResults(store, id);
      DrainLaw(first.store, id);
      var rest := Drain(first.store, id, |queue| - 1);
      assert first.store.results[id] == queue[1..];
      forall i | 1 <= i < |queue|
        ensures Drain(store, id, |queue|).pages[i]
             == Success(RetrievalResult(RESULTS_READY, [queue[i]], None, None, i < |queue| - 1))
      {
        assert Drain(store, id, |queue|).pages[i] == rest.pages[i - 1];
        assert queue[1..][i - 1] == queue[i];
      }
    }
  }

  /**
   * What the task's DONE guard would do if the task of a session were run a
   * second time, a schedule the server itself never makes (it starts one
   * task per announcement): for a session whose prompt matched something and
   * has no cap, the stale NOT_STARTED state lets the guard pass, and the
   * task scans again and queues the same contexts twice.
   */
  lemma SecondRunDuplicates(store: Store, request: RetrievalRequest, id: Guid, createdAt: int)
    requires request.maxMatches <= 0
    requires Matches(store.corpus, request.latestUserPrompt) != []
    ensures var s1 := Announce(store, 0, request, id, createdAt).store;
            var s2 := RunTask(s1, id);
            var s3 := RunTask(s2, id);
            var once := ArticleContexts(Matches(store.corpus, request.latestUserPrompt), FullScore);
            && s2.results[id] == once
            && s3.results[id] == once + once
  {
    AnnounceThenRetrieve(store, request, id, createdAt);
    var s1 := Announce(store, 0, request, id, createdAt).store;
    var s2 := RunTask(s1, id);
    assert s2.sessions[id].retrievalTask.request == request;
    RetrieveEffect(s2, id, request);
    ScanIsFilterThenCap(store.corpus, request.latestUserPrompt, request.maxMatches, |s2.results[id]|);
  }

  /**
   * Modelling extension, not what the server does: the task as evidently
   * intended. Progress updates are applied to the session as last
   * published, so the state never regresses, and the session is marked DONE
   * when the scan ends, also when its result list is missing.
   */
  function RetrieveCompleted(store: Store, id: Guid, request: RetrievalRequest): (r: TaskRun)
    ensures forall i, j :: 0 <= i < j < |r.published| ==>
              Rank(r.published[i].state) <= Rank(r.published[j].state)
    ensures id in store.sessions && |r.published| > 0 ==>
              Rank(store.sessions[id].state) <= Rank(r.published[0].state)
    ensures id in store.sessions ==> id in r.store.sessions && r.store.sessions[id].state == DONE
    ensures r.store.corpus == store.corpus
    ensures r.store.sessions.Keys == store.sessions.Keys && r.store.results.Keys == store.results.Keys
    ensures forall k :: k != id && k in store.sessions ==> r.store.sessions[k] == store.sessions[k]
    ensures forall k :: k != id && k in store.results ==> r.store.results[k] == store.results[k]
    ensures id in store.sessions && store.sessions[id].state != DONE && id in store.results ==>
              var found := ScanFrom(store.corpus, request.latestUserPrompt, request.maxMatches,
                                    |store.results[id]|);
              && r.store.results[id] == store.results[id] + ArticleContexts(found, FullScore)
              && r.store.sessions[id].progress == store.sessions[id].progress.(current := |found|)
  {
    if id !in store.sessions then TaskRun([], store)
    else
      var snapshot := store.sessions[id];
      if snapshot.state == DONE then TaskRun([], store)
      else
        var started := snapshot.(state := ONGOING);
        if id !in store.results then
          var done := started.(state := DONE);
          TaskRun([started, done], store.(sessions := store.sessions[id := done]))
        else
          var queue := store.results[id];
          var found := ScanFrom(store.corpus, request.latestUserPrompt, request.maxMatches, |queue|);
          var done := started.(state := DONE, progress := started.progress.(current := |found|));
          TaskRun([started] + ProgressWrites(started, |found|) + [done],
                  store.(sessions := store.sessions[id := done],
                         results := store.results[id := queue + ArticleContexts(found, FullScore)]))
  }

  /**
   * End to end with the intended task: announce, run the task to DONE, and
   * drain. The fetches return exactly the capped matches in corpus order,
   * then no results; the progress counts them; the process step reports
   * DONE and chat completion streams only the end marker.
   */
  lemma AnnounceCompleteDrain(store: Store, request: RetrievalRequest, id: Guid, createdAt: int,
                              llmResponse: Option<LLMResponse>, messages: seq<ChatMessage>)
    ensures var s1 := Announce(store, 0, request, id, createdAt).store;
            var s2 := RetrieveCompleted(s1, id, request).store;
            var expected := ArticleContexts(Cap(Matches(store.corpus, request.latestUserPrompt), request.maxMatches), FullScore);
            var d := Drain(s2, id, |expected|);
            && s2.sessions[id].state == DONE
            && s2.sessions[id].progress == RetrievalProgress(NUMBER_OF_ITEMS, |expected|, |store.corpus|)
            && |d.pages| == |expected|
            && (forall i :: 0 <= i < |expected| ==>
                  d.pages[i] == Success(RetrievalResult(RESULTS_READY, [expected[i]], None, None, i < |expected| - 1)))
            && GetResults(d.store, id).result == Success(EmptyPage(NO_RESULTS_FOUND))
            && QueryProcessStep(s2, id, llmResponse) == Success(RetrievalProcessStepResponse(STEP_DONE, EmptyGuid, None))
            && ChatCompletion(s2, id, messages) == Success([EndFrame])
  {
    var s1 := Announce(store, 0, request, id, createdAt).store;
    var s2 := RetrieveCompleted(s1, id, request).store;
    ScanFromEmptyIsCapOfMatches(store.corpus, request.latestUserPrompt, request.maxMatches);
    assert s2.results[id] == ArticleContexts(Cap(Matches(store.corpus, request.latestUserPrompt), request.maxMatches), FullScore);
    DrainLaw(s2, id);
  }

  /** Reading the content fragments back from a stream recovers them exactly. */
  lemma {:induction false} FramesRoundTrip(contents: seq<string>)
    ensures FrameContents(Frames(contents)) == contents
    decreases |contents|
  {
    if |contents| > 0 {
      FramesRoundTrip(contents[1..]);
      assert Frames(contents)[1..] == Frames(contents[1..]);
    }
  }
}
