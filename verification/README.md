# ERI demo server: retrieval sessions, keyword retrieval and token gate in Dafny

This project models the behavioural core of the ERI demonstration data source server and proves properties of the model.

- **Session-based retrieval (API version 2).** A caller announces a retrieval session. A detached background task scans a fixed corpus of Wikipedia links for titles that occur in the prompt. The task queues the matches and publishes progress. Callers poll the session state and the process step, and fetch results one per call. The chat-completion stream is only available once the session is DONE.
- **Synchronous retrieval (API version 1).** The same keyword scan, returned in one response.
- **Authentication.** A token handshake over a growing set of valid tokens, and a middleware gate that lets a request through or answers 401.

The model is sequential and functional:

- The two process-wide dictionaries become one immutable `Store`. It holds the sessions, the per-session FIFO result lists, and the read-only corpus the tasks scan.
- Every handler is a function of the store and its inputs. A handler that changes the store (announce, result fetch) returns a response or error together with the next store. The read-only queries (retrieval info, state, process step, chat completion) return only a response or error.
- The background task is one atomic transition (`RunTask`) that the environment may fire after a session is announced. `RunTask` returns only the next store. The step it runs, `RetrievalV2.Retrieve`, also returns the sequence of session records the task published, so writes that a concurrent poller could observe can still be stated.
- A freshly started server is `InitialStore`, which carries the five-article demonstration corpus.

Files:

- `wrappers.dfy`: `Option` and `Result`.
- `text.dfy`: ASCII case folding, substring containment, white space, path-segment prefixes.
- `data_model.dfy`: records and enumerations, plus the corpus.
- `scan.dfy`: the keyword scan loop and its reference definition (filter, then cap).
- `retrieval.dfy`: version 1 retrieval.
- `retrieval_v2.dfy`: the session store and its handlers.
- `session_laws.dfy`: laws that span several calls, plus the corrected task.
- `auth.dfy`: handshake and gate.

## Model

| member | source | states |
|---|---|---|
| Scan.ScanFrom | DemoServer/Handler/Retrieval.cs:47-66 | The scan loop only appends corpus items whose title occurs in the prompt. It never appends more items than the corpus holds. Once the result list has reached a positive cap, it appends nothing more. |
| Scan.ScanIsFilterThenCap | DemoServer/Handler/RetrievalV2.cs:157-177 | Starting from a result list of length q, the loop appends exactly the first (cap − q) matches in corpus order when the cap is positive, and every match otherwise. This is the loop-with-break proved equal to an independent filter-then-take definition. |
| Scan.ScanFromEmptyIsCapOfMatches | DemoServer/Handler/Retrieval.cs:47-54 | From an empty list the scan yields the matches in corpus order, cut to the first MaxMatches when MaxMatches > 0 and not cut when MaxMatches ≤ 0. |
| Scan.MatchesMembership | DemoServer/Handler/Retrieval.cs:49-51 | An item is among the matches iff it is in the corpus and its title occurs in the prompt, ignoring case. |
| Text.ContainsIff | DemoServer/Handler/Retrieval.cs:50 | The containment test succeeds iff the needle occurs at some position of the haystack. |
| Retrieval.RetrieveFrom | DemoServer/Handler/Retrieval.cs:38-69 | The answer is the capped list of matching articles in corpus order. It has at most MaxMatches entries when MaxMatches > 0. Each context is built from a matching corpus article: Name = title, Path = MatchedContent = URL, category "Wikipedia Article", type TEXT, no surrounding content, no links. |
| RetrievalV2.GetRetrievalInfo | DemoServer/Handler/RetrievalV2.cs:78-84 | Succeeds iff the data source id is 0. It then returns the single process "DEMO-1", which has no embeddings and no server-side LLM requirement. Any other id fails with an invalid-data-source error. |
| RetrievalV2.Announce | DemoServer/Handler/RetrievalV2.cs:93-134 | A data source id other than 0 fails and leaves the store unchanged. Otherwise the given id is registered with state NOT_STARTED, progress (NUMBER_OF_ITEMS, 0, corpus size), the request captured for its task, and an empty result list. Every other session and list is left unchanged. |
| RetrievalV2.Retrieve | DemoServer/Handler/RetrievalV2.cs:136-185 | An unknown or DONE session is left alone. Otherwise the task first publishes the session as ONGOING and finally stores its last publication. It never publishes DONE and touches no other session or list. |
| SessionLaws.InfoAndAnnounceAgree | DemoServer/Handler/RetrievalV2.cs:78-98 | The retrieval-info query succeeds for exactly the data sources an announcement accepts. On every other id both fail with the same invalid-data-source error. |
| RetrievalV2.GetRetrievalState | DemoServer/Handler/RetrievalV2.cs:193-199 | An unknown id fails with an invalid-session error. A known id gets the stored (state, progress) pair. The query returns no store, so it changes nothing. |
| RetrievalV2.QueryProcessStep | DemoServer/Handler/RetrievalV2.cs:209-227 | An unknown id fails. A known session gets step DONE iff the session is DONE, and NO_ACTION_NEEDED otherwise. It never gets ASK_LLM. The task id is always the empty id and there is never an LLM task. The query is read-only, so repeated polls agree. |
| RetrievalV2.GetResults | DemoServer/Handler/RetrievalV2.cs:235-279 | An unknown id fails. A session that is not DONE gets PROCESS_STILL_ONGOING with no contexts and no more results. A DONE session with an empty list gets NO_RESULTS_FOUND. In both of those cases the store is unchanged. Otherwise the call returns RESULTS_READY with exactly the list head and removes only that head. moreResultsAvailable says whether anything remains. |
| RetrievalV2.ChatCompletion | DemoServer/Handler/RetrievalV2.cs:290-323 | An unknown id fails with an invalid-session error. A session that is not DONE fails with a not-done error. A DONE session gets a stream of the frames for the server's content fragments. There are none, so the stream is exactly the single end marker. |
| SessionLaws.FramesRoundTrip | DemoServer/Handler/RetrievalV2.cs:300-322 | The stream carries one delta frame per content fragment, in order, before the end marker. Reading the fragments back from the frames recovers them exactly. |
| SessionLaws.RetrieveQueueAndProgress | DemoServer/Handler/RetrievalV2.cs:152-183 | On a live session the task appends the capped matches to the result list, never beyond a positive cap. The progress type and total are kept. current becomes the number appended, or is unchanged when nothing was appended. It stays within the total. |
| SessionLaws.AnnounceThenRetrieve | DemoServer/Handler/RetrievalV2.cs:93-185 | After announce and the task run, the result list is exactly the capped matches in corpus order. Progress is (NUMBER_OF_ITEMS, number queued, corpus size). The state is ONGOING with no match and NOT_STARTED with at least one, and the state query returns exactly that state and progress. Other sessions are untouched. |
| SessionLaws.SynchronousAndSessionRetrievalAgree | DemoServer/Handler/RetrievalV2.cs:157-177 | For the same request and corpus, the session's queue equals the synchronous answer element by element, except that the task sets the confidence score. In particular, the names agree. |
| SessionLaws.StaleSnapshotRegresses | DemoServer/Handler/RetrievalV2.cs:143-183 | On a NOT_STARTED session whose scan appends something, the task publishes ONGOING and then NOT_STARTED with current = 1, 2, …, so the state regresses. The session ends NOT_STARTED. |
| SessionLaws.StaleSnapshotExample | DemoServer/Handler/RetrievalV2.cs:180-183 | A prompt equal to a corpus title, such as "Delphi method", leaves the announced session NOT_STARTED after its task. Along the way the task published ONGOING and made at least one progress update. |
| SessionLaws.SecondRunDuplicates | DemoServer/Handler/RetrievalV2.cs:146-147 | What the DONE guard would do under a schedule the server never makes, because it starts one task per session: if the task of a matching, uncapped session ran a second time, the guard would see the stale NOT_STARTED record and let the task queue the same contexts again. |
| SessionLaws.AnnouncePreservesInvariants | DemoServer/Handler/RetrievalV2.cs:110-129 | Announce keeps the store well formed and adds no DONE session. Well formed means: the same keys in both dictionaries, each session filed under its own id, data source 0, and NUMBER_OF_ITEMS progress within the corpus size. |
| SessionLaws.RunTaskPreservesInvariants | DemoServer/Handler/RetrievalV2.cs:143-183 | A task run keeps the store well formed and marks no session DONE. |
| SessionLaws.GetResultsPreservesInvariants | DemoServer/Handler/RetrievalV2.cs:264-267 | Popping a result keeps the store well formed and marks no session DONE. |
| SessionLaws.StepPreservesInvariants | DemoServer/Handler/RetrievalV2.cs:10-11 | Every store-changing event (announce, task run, result fetch) keeps both invariants. |
| SessionLaws.RunPreservesInvariants | DemoServer/Handler/RetrievalV2.cs:10-11 | Any sequence of events keeps both invariants. |
| SessionLaws.DoneIsUnreachable | DemoServer/Handler/RetrievalV2.cs:136-185 | From a fresh server, no interleaving of announcements, task runs and fetches ever makes a session DONE. So for every announced session, the state query always succeeds with a state other than DONE and progress within its total, results always answer PROCESS_STILL_ONGOING, the process step is always NO_ACTION_NEEDED, and chat completion always fails with the not-done error. |
| SessionLaws.DrainLaw | DemoServer/Handler/RetrievalV2.cs:264-278 | On a DONE session holding n contexts, n fetches return them one at a time in queue order. Each fetch reports whether more remain. The list is then empty, the next fetch answers NO_RESULTS_FOUND, and the session records are untouched. |
| SessionLaws.RetrieveCompleted | DemoServer/Handler/RetrievalV2.cs:136-185 | Modelling extension, the corrected task. Its publications never regress in state, and the session always ends DONE. The queue gains the same contexts as in the server's task, and current counts them. |
| SessionLaws.AnnounceCompleteDrain | DemoServer/Handler/RetrievalV2.cs:235-279 | With the corrected task: after announce and the task run, n fetches return exactly the capped matches in corpus order, then NO_RESULTS_FOUND. Progress counts the matches, the process step is DONE, and chat completion streams only the end marker. |
| Auth.PerformAuth | DemoServer/Handler/Auth.cs:62-96 | Succeeds iff the method is NONE, or USERNAME_PASSWORD with headers user = ["user1"] and password = ["test"]. On success it returns the fresh token, which is added to the set. On failure the token is null, an explanation is given, and the set is unchanged. The explanations are: "Username and password are required." when a credential header is missing, "Invalid username and/or password." for a wrong account, and "Unknown authentication method." for KERBEROS and TOKEN. The set only grows. |
| Auth.EnsureAuth | DemoServer/Handler/Auth.cs:103-148 | The gate forwards any path that starts with the segment /specification or /server, or that contains /auth. For other paths it forwards iff the first token value exists, is not blank, and is valid. Otherwise it answers 401 with "No token provided.", "Empty token provided." or "Invalid token provided.". The gate returns no token set, so it never changes the set. |
| Auth.SuccessUsesAdvertisedScheme | DemoServer/Handler/Auth.cs:8-25 | A successful handshake uses a method the server advertises. For USERNAME_PASSWORD, every advertised header name was present. |
| Auth.HandshakeKeepsTokensNonBlank | DemoServer/Handler/Auth.cs:74-92 | Issuing a non-blank token keeps every valid token non-blank. |
| Auth.GatePassesIffValidToken | DemoServer/Handler/Auth.cs:123-147 | When no valid token is blank, a request to a protected path passes iff the first token value is in the set. |
| Auth.IssuedTokenPassesGate | DemoServer/Handler/Auth.cs:139-147 | The token that a successful handshake returns opens every path when sent as the token header. |
| Auth.GateDecisionStable | DemoServer/Handler/Auth.cs:62-148 | A request the gate forwards is still forwarded after any further handshake. |
| Auth.ExemptSegmentIgnoresCase | DemoServer/Handler/Auth.cs:111-115 | The segment test ignores ASCII case, so /SERVER/info passes unchecked. |
| Auth.ExemptAuthAnywhere | DemoServer/Handler/Auth.cs:117-121 | /auth may occur anywhere, so /retrieval/authx passes unchecked. |
| Auth.NoSegmentBoundaryNotExempt | DemoServer/Handler/Auth.cs:111-115 | A segment test needs a segment boundary, so /serverx is checked. |

Where the program's own documentation or comments and its code disagree, the model follows the code:

- The task should end in DONE. DemoServer/Enums/RetrievalState.cs:18-21 documents DONE as the state of a successfully finished retrieval. DemoServer/DataModel/v20/RetrievalResult.cs:6-7 tells clients to fetch results until NO_RESULTS_FOUND. DemoServer/Handler/RetrievalV2.cs:286 says chat completion needs a finished retrieval. Yet no statement in the code writes DONE.
- The session state should not regress. No documentation states this outright. The comments at DemoServer/Handler/RetrievalV2.cs:149 and DemoServer/Handler/RetrievalV2.cs:179 describe the first write as a state update to ONGOING and the later ones as progress updates. So the progress writes were meant to change only the progress. Yet the code republishes a stale NOT_STARTED record.

Both are stated as lemmas and listed under Findings.

## Left out

- Task scheduling is looser than in the server. The server starts exactly one task per announced session, from the announcement. The model lets the environment fire `RunTask` any number of times, for any id, at any point. `SessionLaws.RunPreservesInvariants` and `SessionLaws.DoneIsUnreachable` therefore cover more schedules than the server makes. `SessionLaws.SecondRunDuplicates` shows what the DONE guard would do under a duplicate run the server never makes.
- Concurrency is not modelled. This covers the semaphore that orders registration before the task, the detached `Task`, concurrent-dictionary semantics and the unsynchronised head pop in result fetching. Every handler and the whole background task are atomic sequential transitions. The race between concurrent fetches is therefore not represented.
- `Guid.NewGuid()` and `DateTime.UtcNow` are not modelled. The session id, the issued token and the creation time are parameters. No lemma needs the id to be fresh: `RetrievalV2.Announce` overwrites an existing entry, as the dictionary indexers at DemoServer/Handler/RetrievalV2.cs:128-129 do. The handshake simply adds the token to the set, so no lemma needs the token to be fresh either.
- Inside the background task, the only fault modelled is a missing result list. There, the task has already published ONGOING. Other runtime faults are not represented.
- Case-insensitive containment with the invariant culture is approximated by ASCII case folding. The model's `Text.StartsWithSegments` folds case for ASCII letters only, whereas the runtime's ordinal ignore-case comparison also folds non-ASCII letters. Non-ASCII case rules are runtime library behaviour.
- Header names are compared exactly as map keys, although HTTP header names are case-insensitive. Header values and the request path are never null.
- JSON serialisation of delta frames and the SSE content-type header are not modelled. A frame is a datatype value, and the end frame stands for the text "data: [END]\n\n". The laziness of the asynchronous stream is not modelled: errors surface at first enumeration, and the client may cancel.
- The float confidence score is reduced to "unset" (synchronous retrieval) or "1" (session task).
- The record definitions of the retrieval request, the context, the embedding info and the chat-thread content blocks are not part of this model. Their fields are taken from how the handlers use them.
- Route registration, start-up, API versioning and OpenAPI/Swagger generation are wiring only. The static catalog handlers for security, data sources, server info, embeddings and tools return constants or stubs.
- The version 1 retrieval-info handler and the auth-methods handler return constants. Only the advertised auth schemes are used, by `Auth.SuccessUsesAdvertisedScheme`.
- Timing is not modelled: the requirement that announce returns before the scan completes, and the monotonic progress of a running task as seen by a concurrent poller. The ordered publications of a task run stand in for the latter.

## Findings

| source | as written | input that shows it | evidently intended | confidence | as-written member | corrected member |
|---|---|---|---|---|---|---|
| DemoServer/Handler/RetrievalV2.cs:180-183 | The progress update copies the session record read before the ONGOING write, so each update republishes NOT_STARTED. | Announce with prompt "Delphi method" and MaxMatches 0, then run the task: ONGOING is published, then NOT_STARTED, which remains. | Progress updates apply to the current record, and the state never regresses. | not executed | SessionLaws.StaleSnapshotExample | SessionLaws.RetrieveCompleted |
| DemoServer/Handler/RetrievalV2.cs:157-184 | The task ends after the loop without marking the session DONE. Results, process step and chat completion therefore never leave their not-done branches. | Any sequence of announcements, task runs and fetches from a fresh server. | The session is DONE after the scan, and its results can then be drained. | not executed | SessionLaws.DoneIsUnreachable | SessionLaws.AnnounceCompleteDrain |

The handlers themselves keep the code's behaviour. The corrected task is a modelling extension, used by the end-to-end drain lemma.
