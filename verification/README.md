# dckr_llm job engine — a Dafny model

dckr_llm is a set of small services: an llm service that streams chat completions from a local model, an embedder, and a vector service in front of a Qdrant store. A NiceGUI frontend talks to them. Every service runs the same asynchronous job engine:

- A request handler builds a job, registers it in a `JobRegister` keyed by the job's uuid, and puts the uuid on a bounded `queue.Queue(maxsize=1000)`.
- A single worker thread takes uuids off the queue, moves the job through `created → processing → finished` (the vector service ends in `completed`), stores the result in the job, and calls `task_done`.
- The client polls the job's status and completion by uuid, and finally unregisters it.

This project models that engine as pure functions over an immutable state of (register, queue). Each worker iteration is one atomic step, which is the effect of the register's lock. It also models the frontend logic that turns polled job data into transcripts and session flags.

| file | module | models |
|---|---|---|
| wrappers.dfy | `Wrappers` | `Option`, `Result` and `min` |
| status.dfy | `JobStatus` | the status strings and their life-cycle order |
| register.dfy | `Register` | `JobRegister` of every service: add, get, quiet delete, raising delete |
| task_queue.dfy | `TaskQueue` | the bounded FIFO with its unfinished-task count |
| role_toggle.dfy | `Roles` | `RoleToggle` and its dictionary form |
| chat_job.dfy | `ChatJobs` | `ChatJob`, shared by the frontend and llm jobtools |
| embed_job.dfy | `EmbedJobs` | `EmbedJob` (llm and embedder) |
| vector_job.dfy | `VectorJobs` | `VectorJob` |
| llm_jobtools.dfy | `LlmJobs` | the llm register of chat and embedding jobs |
| frontend_jobtools.dfy | `FrontendJobs` | the frontend `to_dict`/`from_dict` and raising delete |
| llm_processor.dfy | `LlmProcessor` | the llm worker loop |
| embedder_processor.dfy | `EmbedderProcessor` | the embedder worker loop |
| embedder_app.dfy | `EmbedderApp` | the embedder handlers and the service invariant |
| vector_processor.dfy | `VectorProcessor` | the vector worker, upload and query |
| vector_app.dfy | `VectorApp` | the vector handlers and the service invariant |
| transcript.dfy | `Transcript` | transcript entries, greeting, spinner and timer |
| chat_page.dfy | `ChatPage` | the chat page's transcript loop |
| pdf_page.dfy | `PdfPage` | the PDF page's interleaving loop and `pdf_ready` flags |
| frontend_session.dfy | `Session` | `assign_uuid_if_missing` and the auth middleware |

Things the services get from outside become parameters:

- **Fresh uuids:** passed in as strings.
- **Chat provider:** a function from the message list to a `Stream`, the chunks it delivered plus whether it raised.
- **Embedding provider:** a function to `Option<Vector>`, with `None` when it raises.
- **Qdrant store:** a `Providers` record holding whether the collection exists, the generated vectors, the search hits, and whether a store call raised.
- **`CHATERROR`:** an optional environment value.
- **Frontend:** the polled job status is a `PollStatus` record of optional fields, and the session storage is a map of `Value`s.

Floats are `real`s, and nothing computes with them.

Where the code and its documentation disagree, the model follows the code:

- **llm `delete_job`** swallows an absent id, although its docstring promises `KeyError`.
- **Vector worker, raising provider:** the worker has no `try`. A raising store call ends the thread with the job left "processing" and the task not marked done, so the job is not reported as failed.
- **Vector worker, terminal status:** it writes "completed", not "finished".
- **Embedder `get_status`:** it dereferences an unknown id; see Findings.
- **llm worker names:** it calls `getJob`, `setStatus`, `appendChunk`, `getSysPrompt`, `getMessages` and `appendMessage`. The jobtools define only the snake_case methods, so each of those calls would raise `AttributeError` as written. The model reads them as the snake_case methods they name.
- **Vector handlers** call `jobReg.collection_exists`, which the register does not define. The model takes its answer as a parameter.
- **The frontend middleware** reads `Client.page_routes` without importing `Client`. The model takes the set of page routes as a parameter; `Session.RegisteredPageRoutes` lists the six routes `init` registers.
- **Vector service start-up:** containers/vector_service/src/jobtools.py:1-2 does not import `RLock`, so the `JobRegister()` built at containers/vector_service/src/app.py:14 raises `NameError` and the service cannot start as written. The model assumes the import is there.
- **Embedder import:** containers/embedder/src/processor.py:83 annotates with `List[float]`, but lines 1-4 do not import `List`, so loading the module raises `NameError`. The model assumes the import is there.
- **llm import:** containers/llm/src/jobtools.py:2 does not import `Union`, which the `add_job` and `get_job` annotations at lines 210 and 220 use, so loading the module raises `NameError` and the llm worker's import at containers/llm/src/processor.py:4 fails as written. The model assumes the import is there.
- **Vector handlers, rejections:** `upload_files` and `query_vector_store` return their `HTTPException` as the reply value instead of raising it. `VectorApp.Rejected` is that returned value; no HTTP error status is sent.

## Model

| member | source | states |
|---|---|---|
| Register.Add | containers/frontend/src/jobtools.py:177-185 | `add_job` stores the job under its id, overwriting any earlier entry; every other id keeps its job and no id is lost |
| Register.Get | containers/frontend/src/jobtools.py:187-198 | `get_job` returns the stored job exactly when the id is present, otherwise `None` |
| Register.DeleteQuietly | containers/llm/src/jobtools.py:194-208 | the llm/embedder/vector `delete_job` removes only that id; an absent id leaves the register exactly as it was and raises nothing |
| Register.DeleteOrRaise | containers/frontend/src/jobtools.py:161-175 | the frontend `delete_job` raises a `KeyError` carrying the id (its message is "Job with UUID '<id>' does not exist.") exactly when the id is absent; otherwise only that id is removed |
| Register.AddJob | containers/embedder/src/jobtools.py:115-123 | `add_job` of every service: the job is found under its own `get_uuid()`, every other id is unaffected, and every entry stays keyed by its own id |
| Register.AddThenGet | containers/frontend/src/jobtools.py:177-198 | `get_job` right after `add_job` returns the job just added |
| Register.AddKeepsOthers | containers/embedder/src/jobtools.py:115-136 | adding under one id leaves the lookup of every other id unchanged |
| Register.AddOverwrites | containers/frontend/src/jobtools.py:177-185 | re-adding an id overwrites: the second job replaces the first |
| Register.DeleteThenGet | containers/vector_service/src/jobtools.py:147-184 | after a delete the id looks up `None` and every other id keeps its job |
| Register.DeletesAgreeOnPresentKey | containers/frontend/src/jobtools.py:161-175 | the raising and quiet deletes agree exactly when the id is present |
| Register.DeleteQuietlyIdempotent | containers/embedder/src/jobtools.py:99-113 | deleting an id twice is the same as deleting it once |
| Register.AddThenDelete | containers/vector_service/src/jobtools.py:147-171 | deleting a freshly added id restores the register, under both deletes |
| TaskQueue.Put | containers/embedder/src/app.py:17 | a non-blocking put on the 1000-slot queue raises `queue.Full` exactly at capacity and leaves the queue unchanged; otherwise the id joins the tail, one more task is unfinished, the queue stays within capacity, and validity is kept |
| TaskQueue.PutBlocking | containers/embedder/src/app.py:119-122 | `put` with its default blocking waits exactly at capacity and never raises; when it returns, it agrees with the non-blocking put |
| TaskQueue.Get | containers/llm/src/processor.py:43 | `get` returns the head and the rest exactly when the queue is non-empty; the task stays unfinished |
| TaskQueue.TaskDone | containers/llm/src/processor.py:77-79 | `task_done` lowers the unfinished count by one and leaves the items alone |
| TaskQueue.GetThenTaskDoneValid | containers/embedder/src/processor.py:41-57 | a get followed by `task_done` keeps every queued item counted as an unfinished task |
| TaskQueue.PutThenGetIsFifo | containers/embedder/src/app.py:116-120 | two puts append in order, behind what was queued, and a get on a fresh queue returns the first id put |
| Roles.NewToggle | containers/frontend/src/jobtools.py:231-233 | a new toggle keeps both role names and starts with the user acting |
| Roles.Toggle | containers/frontend/src/jobtools.py:290-292 | `toggle` returns the role acting before the call; it flips user to assistant and anything else to user, keeping the names |
| Roles.ToggleTimesAlternates | containers/llm/src/jobtools.py:266-279 | from a well-formed toggle, successive calls alternate acting, other, acting, ...; the toggle ends on the acting role after an even number of calls |
| Roles.FreshToggleAlternates | containers/embedder/src/jobtools.py:169-184 | a fresh toggle yields user at even calls and assistant at odd calls |
| Roles.TwoTogglesRestore | containers/llm/src/jobtools.py:264-279 | two calls return the acting role, then the other one, and restore the toggle |
| Roles.ToDict | containers/frontend/src/jobtools.py:275-279 | `to_dict` has exactly the keys user, assistant and `_acting` |
| Roles.FromDict | containers/frontend/src/jobtools.py:252-254 | `from_dict` succeeds exactly when all three keys are present, and then takes each field from its key |
| Roles.DictRoundTrip | containers/frontend/src/jobtools.py:252-279 | `from_dict(to_dict(t))` restores every field, `_acting` included |
| Roles.DictRoundTripBack | containers/frontend/src/jobtools.py:252-279 | `to_dict(from_dict(d))` returns the three keys `d` was read from |
| ChatJobs.NewChatJob | containers/frontend/src/jobtools.py:25-29 | a new chat job keeps the prompt, messages and id, and starts "created" with an empty completion |
| ChatJobs.AppendChunk | containers/frontend/src/jobtools.py:31-38 | `append_chunk` extends the completion at its end by the chunk; messages, status and id are unchanged |
| ChatJobs.AppendMessage | containers/frontend/src/jobtools.py:40-45 | `append_message` pushes the old completion as the one new last message and clears the completion |
| ChatJobs.SetStatus | containers/llm/src/jobtools.py:92-99 | `set_status` overwrites the status with no transition check and nothing else changes |
| ChatJobs.SetCompletion | containers/frontend/src/jobtools.py:107-114 | `set_completion` replaces the completion only |
| ChatJobs.SetUuid | containers/frontend/src/jobtools.py:124-131 | `set_uuid` replaces the id only |
| ChatJobs.AppendChunks | containers/llm/src/processor.py:63-65 | after the k-th streamed chunk the job holds the old completion followed by the first k chunks in order, and nothing else changed |
| ChatJobs.AfterChunks | containers/llm/src/processor.py:63-65 | once the stream ends, the completion is the old one followed by all chunks in order |
| ChatJobs.StreamOnlyAppends | containers/llm/src/jobtools.py:31-38 | while chunks stream in, each completion is a prefix of the next and the messages stay put |
| FrontendJobs.ToDict | containers/frontend/src/jobtools.py:133-143 | `to_dict` maps the five attribute names to the job's fields |
| FrontendJobs.FromDict | containers/frontend/src/jobtools.py:47-60 | `from_dict` succeeds exactly on a well-shaped dictionary; it raises `KeyError` for a missing sys_prompt, then for missing messages; a given uuid is kept, and uuid defaults to none, status to "created", completion to "" |
| FrontendJobs.DictRoundTrip | containers/frontend/src/jobtools.py:47-60 | `from_dict(to_dict(j))` reproduces prompt, messages, id, status and completion |
| FrontendJobs.FromDictDefaults | containers/frontend/src/jobtools.py:57-59 | a dictionary with only the required keys reads as a "created" job with empty completion and no id |
| FrontendJobs.DeleteJob | containers/frontend/src/jobtools.py:161-175 | fails exactly on an absent id; on success only that id is gone |
| EmbedJobs.NewEmbedJob | containers/embedder/src/jobtools.py:17-27 | a new embedding job keeps its text and starts "created" with no embedding |
| EmbedJobs.SetEmbedding | containers/embedder/src/jobtools.py:29-36 | `set_embedding` replaces the embedding only (`None` allowed) |
| EmbedJobs.SetStatus | containers/embedder/src/jobtools.py:74-81 | `set_status` replaces the status only |
| EmbedJobs.SetThenGetEmbedding | containers/llm/src/jobtools.py:124-140 | `get_embedding` after `set_embedding(e)` returns e, `None` included; the text is unchanged and setting again is idempotent |
| VectorJobs.NewVectorJob | containers/vector_service/src/jobtools.py:20-39 | the constructor keeps every argument and starts "created" with no result |
| VectorJobs.ConstructorDefaults | containers/vector_service/src/jobtools.py:20-39 | with no keyword arguments the job is an "upload" to collection "" with no files, metadata or query |
| VectorJobs.SetResult | containers/vector_service/src/jobtools.py:41-57 | `get_result` after `set_result(r)` returns r; status and inputs unchanged |
| VectorJobs.SetStatus | containers/vector_service/src/jobtools.py:122-129 | `set_status` changes the status only |
| VectorJobs.GettersKeepConstructorArguments | containers/vector_service/src/jobtools.py:59-111 | after any setters the getters still return the constructor arguments, and the result is the last one set |
| LlmJobs.AddKeepsKeyed | containers/llm/src/jobtools.py:210-218 | `add_job` of a chat or an embedding job stores it under its own `get_uuid()`, so the mixed register stays keyed by each job's id |
| LlmJobs.DeleteJob | containers/llm/src/jobtools.py:194-208 | the id is gone and others are kept; an absent id is a no-op despite the `KeyError` docstring |
| LlmProcessor.HistoryMessages | containers/llm/src/processor.py:55-56 | the loop adds one entry per history message, carrying that message's text unchanged |
| LlmProcessor.HistoryMessagesFollowToggle | containers/llm/src/processor.py:50-56 | history entry i is sent with the role the i-th `toggle()` call returns, and its text unchanged |
| LlmProcessor.MessageListRoles | containers/llm/src/processor.py:51-56 | the request has 1 + \|history\| entries: the system prompt first, then history entry i as "user" for even i and "assistant" for odd i |
| LlmProcessor.ChatRun | containers/llm/src/processor.py:45-75 | the status is "processing" before any chunk and until the last write; the chunks arrive in order; the error text comes after them if the provider raised; the history grows by exactly that reply at the end; the completion is cleared; the final status is "finished", never "failed" |
| LlmProcessor.ChatRunOnlyAppends | containers/llm/src/processor.py:59-71 | before `append_message`, each write extends the completion at its end |
| LlmProcessor.ProviderFailureDegradesToErrorText | containers/llm/src/processor.py:67-75 | a provider that raises at once leaves the job finished, with the `CHATERROR` text (by default "An error occurred.") as its new message |
| LlmProcessor.StepAsWritten | containers/llm/src/processor.py:41-79 | as written: `task_done` follows every `get`; the thread dies exactly when the id has no job or names an embedding job, leaving an embedding job "processing" and the register otherwise untouched; a chat job alone becomes its finished reply |
| LlmProcessor.StepLlm | containers/llm/src/processor.py:41-79 | corrected: one `task_done` per id taken, no crash; a non-chat id leaves the register alone; a chat job alone becomes its finished reply |
| LlmProcessor.UnknownIdKillsWorker | containers/llm/src/processor.py:45-48 | an unregistered id at the head kills the worker as written; the corrected step passes over it |
| LlmProcessor.StepsAgreeOnChatJobs | containers/llm/src/processor.py:41-79 | both steps agree whenever the head of the queue is a chat job |
| EmbedderProcessor.ProcessEmbedJob | containers/embedder/src/processor.py:60-81 | the job goes processing, then gets the provider's vector (or `None` if it raised), then finished; the text never changes |
| EmbedderProcessor.StepEmbed | containers/embedder/src/processor.py:41-57 | one `task_done` per id taken; an id without a job changes nothing; a job becomes finished with the provider's embedding and no other job changes |
| EmbedderProcessor.ProviderFailureStillFinishes | containers/embedder/src/processor.py:69-81 | when the provider raises the job ends "finished" with no embedding, never "failed" |
| EmbedderApp.SubmitAsWritten | containers/embedder/src/app.py:116-127 | as written: the job is registered first; the blocking put waits exactly at capacity, otherwise the answer is the id with "created" |
| EmbedderApp.SubmitAsWrittenNeverFails | containers/embedder/src/app.py:119-122 | as written, no answered submit ever carries "failed" |
| EmbedderApp.SubmitEmbed | containers/embedder/src/app.py:116-127 | the job is registered with its text before the enqueue; at capacity the queue is unchanged and the job and answer say "failed"; otherwise the id joins the tail and stays "created" |
| EmbedderApp.GetCompletion | containers/embedder/src/app.py:53-85 | a registered job answers with its embedding and status; any other id gets "Job not found" with empty completion, embedding and status |
| EmbedderApp.GetStatusAsWritten | containers/embedder/src/app.py:39-50 | as written, fails exactly on an unknown id; otherwise reports the job's status and the queue size |
| EmbedderApp.GetStatus | containers/embedder/src/app.py:39-50 | corrected: the job's status (or "" if unknown) and the queue size; agrees with the original wherever that succeeds |
| EmbedderApp.UnknownStatusPoll | containers/embedder/src/app.py:50 | polling an unknown id fails as written and answers status "" when corrected |
| EmbedderApp.Unregister | containers/embedder/src/app.py:88-101 | always answers "OK"; the id is gone, others and the queue are untouched |
| EmbedderApp.UnregisterUnknownIsNoop | containers/embedder/src/app.py:100-101 | unregistering an unknown id changes nothing, and a later poll says not found |
| EmbedderApp.InitialInv | containers/embedder/src/app.py:15-17 | the empty register and queue satisfy the service invariant |
| EmbedderApp.SubmitKeepsInv | containers/embedder/src/app.py:116-127 | a submit with a fresh id keeps the queue valid, bounded, duplicate-free and keyed, with queued jobs "created"; no status regresses |
| EmbedderApp.StepKeepsInv | containers/embedder/src/processor.py:41-81 | a worker step keeps the invariant and moves statuses only forward |
| EmbedderApp.UnregisterKeepsInv | containers/embedder/src/app.py:100-101 | unregistering keeps the invariant |
| EmbedderApp.SubmitAtCapacityFails | containers/embedder/src/app.py:119-127 | at 1000 queued ids a submit answers "failed" at once and a poll sees it failed with no embedding |
| VectorProcessor.UploadPoints | containers/vector_service/src/processor.py:66-77 | the points pair vectors with files as `zip` does; each payload carries the metadata source, the author and one file's content, in order |
| VectorProcessor.UploadCarriesEveryFile | containers/vector_service/src/processor.py:67-77 | with one vector per file, the uploaded contents are exactly the files in order, each with the job's source and author |
| VectorProcessor.ProcessUpload | containers/vector_service/src/processor.py:49-85 | creates the collection only when reported missing, then upserts the points; the result is "Files uploaded successfully" with the point count, which is the number of files when the generator gives one vector per file (as `generate_embeddings` at line 126 does); `None` files, `None` metadata with points, or a raising store crash |
| VectorProcessor.FormatHits | containers/vector_service/src/processor.py:105-111 | each hit becomes {score, metadata}, one to one and in order |
| VectorProcessor.ProcessQuery | containers/vector_service/src/processor.py:87-113 | one search of the job's collection with limit 5; the formatted hits are the result |
| VectorProcessor.Dispatch | containers/vector_service/src/processor.py:41-45 | an "upload" job gets an upload report and a "query" job gets query hits; only an upload can die of a missing field, and a query dies exactly when the store raises |
| VectorProcessor.StepVector | containers/vector_service/src/processor.py:33-47 | an id without a job changes nothing and is marked done; a job goes processing and then "completed" whatever its task type, with the dispatched result; a crash leaves it "processing" and skips `task_done` |
| VectorProcessor.QueryJobCompletes | containers/vector_service/src/processor.py:33-113 | a queued query job with a store that does not raise is taken off the queue, searched once in its own collection with its query vector and limit 5, and completed with every hit as {score, metadata} in the store's order; no other store call is made and no other job changes |
| VectorApp.Enqueue | containers/vector_service/src/app.py:62-69 | corrected put: registered first; at capacity the queue is unchanged and the job is "failed"; otherwise the id joins the tail; the answer echoes id and status |
| VectorApp.EnqueueAsWritten | containers/vector_service/src/app.py:62-69 | as written: the blocking put waits exactly at capacity; when it answers, it agrees with the corrected enqueue |
| VectorApp.EnqueueAsWrittenNeverFails | containers/vector_service/src/app.py:64-67 | as written, a fresh job is never answered "failed"; at capacity the corrected enqueue answers "failed" |
| VectorApp.Metadata | containers/vector_service/src/app.py:26-28 | the metadata dictionary yields the source, and the author or `None` |
| VectorApp.UploadFiles | containers/vector_service/src/app.py:42-69 | for an existing collection the handler returns (does not raise) `HTTPException(400, "Collection already exists.")` with nothing registered; otherwise an "upload" job for those files, metadata and collection is registered; below capacity its id joins the queue's tail, at capacity the queue is unchanged and the answer is "failed"; no other job changes |
| VectorApp.QueryVectorStore | containers/vector_service/src/app.py:72-98 | for a missing collection the handler returns (does not raise) `HTTPException(404, "Collection not found.")` with nothing registered; otherwise a "query" job for that query and collection is registered; below capacity its id joins the queue's tail, at capacity the queue is unchanged and the answer is "failed"; no other job changes |
| VectorApp.GetCompletion | containers/vector_service/src/app.py:115-136 | a query job answers result and status; any other job gets "Unknown job type"; an unknown id gets "Job not found" with status "" |
| VectorApp.Unregister | containers/vector_service/src/app.py:139-151 | always "OK"; only that id is removed |
| VectorApp.EnqueueKeepsInv | containers/vector_service/src/app.py:56-69 | enqueueing a fresh "created" job keeps the service invariant |
| VectorApp.SubmitsKeepInv | containers/vector_service/src/app.py:42-98 | both submit handlers keep the invariant for a fresh id, accepted or rejected |
| VectorApp.StepKeepsInv | containers/vector_service/src/processor.py:33-47 | a worker step keeps the invariant and moves statuses only forward, crash included |
| VectorApp.UnregisterKeepsInv | containers/vector_service/src/app.py:150-151 | unregistering keeps the invariant |
| Transcript.TextsPartition | containers/frontend/src/pdf.py:61-74 | every entry is shown as the user or as the assistant, so the two speakers' texts together are exactly as many as the entries; with `PdfPage.PdfInterleave` this bounds the loop's output by one entry per question and answer |
| Transcript.NatToStringRoundTrip | containers/frontend/src/chat.py:23 | the queue length's decimal text reads back as the number, with no leading zero |
| Transcript.Greeting | containers/frontend/src/chat.py:23 | the first entry is the assistant's greeting followed by the digits of the queue length |
| Transcript.StatusIndicator | containers/frontend/src/chat.py:46-61 | the spinner shows exactly while the status is "processing"; the timer is off exactly when it is "finished" |
| ChatPage.ChatInputs | containers/frontend/src/chat.py:24-32 | prompts and answers are read only for a 'chat' job |
| ChatPage.PromptsShown | containers/frontend/src/chat.py:36 | the shown questions are exactly those before the first empty one |
| ChatPage.TurnsTexts | containers/frontend/src/chat.py:36-42 | the first k turns show the first k questions, the non-empty answers among them, and at most two entries per turn |
| ChatPage.ChatTurns | containers/frontend/src/chat.py:33-42 | the loop's output is the turns of the questions before the first empty one, each question followed by its answer exactly when that exists and is non-empty; at most two entries per question |
| ChatPage.ChatMessages | containers/frontend/src/chat.py:20-61 | the greeting first; only the greeting for a non-chat job; at most 1 + 2·\|questions\| entries; spinner and timer follow the status |
| PdfPage.NextEntry | containers/frontend/src/pdf.py:61-74 | one list's turn shows its next entry if non-empty and otherwise skips it and ends the pass |
| PdfPage.Pass | containers/frontend/src/pdf.py:60-76 | a pass finishes the loop exactly when it reaches its end without meeting an empty entry and with both lists used up; a pass that does not finish advances a position, which makes the loop terminate |
| PdfPage.LockstepPass | containers/frontend/src/pdf.py:60-76 | on lists without empty entries each pass appends the next question and then the next answer |
| PdfPage.InterleavePasses | containers/frontend/src/pdf.py:57-76 | the loop runs passes until the finishing one and so terminates; it ends with both lists used up, each speaker's entries being that list's non-empty strings, and on lists without empty entries the output is their strict alternation |
| PdfPage.PdfInterleave | containers/frontend/src/pdf.py:57-76 | the loop terminates; the question entries are exactly the non-empty questions in order, the answer entries exactly the non-empty answers; with no empty entries the output is q0, a0, q1, a1, … and then the leftovers |
| PdfPage.PdfInputs | containers/frontend/src/pdf.py:24-56 | 'pdf_chat' reads prompts and answers, 'pdf_summarize' answers only, any other job nothing |
| PdfPage.PdfMessages | containers/frontend/src/pdf.py:20-94 | the greeting first, then the processing report for a 'pdf_processing' job with a status; after the greeting the questions shown are exactly the job's non-empty questions; spinner and timer follow the status |
| PdfPage.UpdateFlags | containers/frontend/src/pdf.py:27-54 | 'pdf_processing' + "finished" sets ready and answered; any other status clears ready; 'pdf_chat'/'pdf_summarize' set answered iff "finished"; no other flag changes |
| PdfPage.ResetFlags | containers/frontend/src/pdf.py:105-109 | `delete_chat` leaves ready and answered false and ready_to_upload true |
| PdfPage.ResetThenPollKeepsUpload | containers/frontend/src/pdf.py:27-54 | no poll touches ready_to_upload, so it stays true after a reset |
| Session.Default | containers/frontend/src/frontend.py:42-43 | a truthy value is kept; a missing or falsy one is replaced; no other key changes |
| Session.AssignIfMissing | containers/frontend/src/frontend.py:38-53 | afterwards chat_job, pdf_job and pdf_ready are all truthy; truthy ones keep their values; others get fresh uuids and {ready: false, answered: false, ready_to_upload: true}; other keys untouched |
| Session.AssignIfMissingIdempotent | containers/frontend/src/frontend.py:42-53 | a second call is a no-op, whatever uuids it draws |
| Session.AssignIfMissingKeepsComplete | containers/frontend/src/frontend.py:42-53 | a session with all three keys truthy is left exactly as it is |
| Session.Dispatch | containers/frontend/src/frontend.py:64-76 | redirect to /login exactly for an unauthenticated request to a page route outside the unrestricted ones, storing referrer_path; everything else passes with storage unchanged |
| Session.GuardedPages | containers/frontend/src/frontend.py:92-121 | among the registered pages, an unauthenticated user is redirected exactly from /management and /statistic |
| Session.LoginPageNeverRedirects | containers/frontend/src/frontend.py:57 | /login always passes, so a redirect cannot loop |
| Session.RedirectThenLoginPasses | containers/frontend/src/frontend.py:67-74 | after a redirect and a login, the remembered path passes and referrer_path still holds it |

## Left out

- Threads, the register's `RLock` and the blocking `queue.get`: each worker iteration and each handler is one atomic step. An empty queue is the `Idle` outcome, where the real call would wait.
- The llm model, the embedding model, Qdrant and numpy are not modelled; their answers are parameters. Vector contents are never computed with.
- The query text of a vector query does not reach the store: the query vector is generated without it. The model therefore has no relation between the query and the vector.
- UUID generation (`uuid4`) is not modelled: fresh ids are parameters, and the invariant lemmas assume the id is new. Qdrant point ids are left out of `VectorProcessor.Point`.
- llm `app.py`, `model.py`, the frontend `api_calls.py`, the NiceGUI widgets, the login page, `handle_upload` and `copy_data` are out of scope. `delete_chat`'s call to `removeJob` and its storage writes other than the flags are left out too.
- The vector service's `get_status` has the same `None` dereference as the embedder's. Only the embedder's version is modelled.
- FrontendJobs.FromDict: a value of the wrong shape is a `WrongShape` error here, whereas Python would store it untyped.
- EmbedderApp.GetCompletion: the "Unknown job type" branch is unreachable because the embedder register holds only embedding jobs.
- LlmProcessor.StepAsWritten: it reads the camelCase calls as their snake_case methods. Taken literally, every job would end in `AttributeError`.
- Session.Dispatch: `Client.page_routes` is not imported in the source, so the page routes are a parameter.
- VectorProcessor.ProcessUpload: when files or metadata are `None` it records no store calls before the crash, whereas the source calls `get_collection` and possibly `create_collection` first. The case is unreachable: the request model always supplies both fields (containers/vector_service/src/app.py:29-31).
- Register.DeleteOrRaise: the `KeyError` carries the id, not the formatted message text.
- VectorProcessor.StepVector: for a task type other than "upload" and "query" the job is marked "completed" with no result, as in the source. When the store raises, the thread dies, and the model records that as the `Crashed` outcome.
- Stream chunks from the llm are read as text deltas. The model treats each chunk as the string appended.

## Findings

| source | as written | input that shows it | evidently intended | confidence | as-written member | corrected member |
|---|---|---|---|---|---|---|
| containers/embedder/src/app.py:119-122 | `taskQueue.put(uuid)` blocks by default, so the `except queue.Full` branch never runs and a submit at capacity hangs | 1000 ids queued, then any `/embed/` request | a non-blocking put that marks the job "failed" and answers at once | not executed | EmbedderApp.SubmitAsWritten | EmbedderApp.SubmitEmbed |
| containers/vector_service/src/app.py:64-67 | the same blocking `put` makes the `queue.Full` handler dead in both submit handlers | 1000 ids queued, then any upload or query | a non-blocking put that marks the job "failed" | not executed | VectorApp.EnqueueAsWritten | VectorApp.Enqueue |
| containers/llm/src/processor.py:45-48 | the job is used without checking `get_job`'s result; an unknown id raises `AttributeError` inside `try`/`finally`, and the exception ends the worker thread | a client unregisters a chat job while its id is still queued | pass over ids without a chat job, as the embedder worker does | not executed | LlmProcessor.StepAsWritten | LlmProcessor.StepLlm |
| containers/embedder/src/app.py:50 | `get_status` calls `.get_status()` on `get_job`'s result, which is `None` for an unknown id | `/getStatus/` with an id that was never registered or was unregistered | answer status "" like `get_completion` does | not executed | EmbedderApp.GetStatusAsWritten | EmbedderApp.GetStatus |
