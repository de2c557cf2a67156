/** The vector service's request handlers (`upload_files`,
    `query_vector_store`, `get_completion`, `unregister_job`) and the
    invariant they keep with the worker. The handlers ask
    `jobReg.collection_exists`, which the register does not define; the
    answer is a parameter here. */
module VectorApp {
  import opened Wrappers
  import opened JobStatus
  import opened VectorJobs
  import opened TaskQueue
  import opened VectorProcessor
  import Register

  /** A submit reply: the `HTTPException` the handler returns, or
      `{"uuid": ..., "status": ...}`. */
  datatype SubmitResponse = Rejected(code: nat, detail: string) | Accepted(uuid: string, status: Status)

  /** Register `job`, then try the non-blocking enqueue its `queue.Full`
      handler expects; a full queue marks the job failed. */
  function Enqueue(s: VectorState, job: VectorJob): (r: (VectorState, SubmitResponse))
    ensures job.uuid in r.0.reg && r.1 == Accepted(job.uuid, r.0.reg[job.uuid].status)
    ensures Inputs(r.0.reg[job.uuid]) == Inputs(job)
    ensures forall other :: other != job.uuid ==> Register.Get(r.0.reg, other) == Register.Get(s.reg, other)
    ensures s.queue.Full() ==> r.0.queue == s.queue && r.0.reg[job.uuid] == job.(status := Failed)
    ensures !s.queue.Full() ==> r.0.queue.items == s.queue.items + [job.uuid] && r.0.reg[job.uuid] == job
  {
    var reg := Register.AddJob(s.reg, job, GetUuid);
    match Put(s.queue, job.uuid)
    case Success(q) => (VectorState(reg, q), Accepted(job.uuid, job.status))
    case Failure(_) =>
      var failed := SetStatus(job, Failed);
      (VectorState(Register.AddJob(reg, failed, GetUuid), s.queue), Accepted(job.uuid, failed.status))
  }

  /** The enqueue as written: `taskQueue.put` with its default `block=True`
      waits at capacity instead of raising, so the request does not answer
      yet and the `queue.Full` handler never runs. */
  datatype BlockingSubmit = Answered(state: VectorState, response: SubmitResponse) | Blocked(state: VectorState)
  function EnqueueAsWritten(s: VectorState, job: VectorJob): (r: BlockingSubmit)
    ensures r.Blocked? <==> s.queue.Full()
    ensures job.uuid in r.state.reg && r.state.reg[job.uuid] == job
    ensures r.Answered? ==> r.response == Accepted(job.uuid, job.status)
    ensures r.Answered? ==> Enqueue(s, job) == (r.state, r.response)
  {
    var reg := Register.AddJob(s.reg, job, GetUuid);
    match PutBlocking(s.queue, job.uuid)
    case Enqueued(q) => Answered(VectorState(reg, q), Accepted(job.uuid, job.status))
    case Waiting => Blocked(VectorState(reg, s.queue))
  }

  /** Finding: as written, a fresh job is never answered "failed"; at
      capacity the corrected enqueue answers "failed" at once. */
  lemma EnqueueAsWrittenNeverFails(s: VectorState, job: VectorJob)
    requires job.status == Created
    ensures EnqueueAsWritten(s, job).Answered? ==> EnqueueAsWritten(s, job).response.status != Failed
    ensures s.queue.Full() ==> EnqueueAsWritten(s, job).Blocked? && Enqueue(s, job).1.status == Failed
  {
  }

  /** `FileMetadata(source, author).dict()`; an absent author reads as `None`
      through `get`, like a missing key. */
  function Metadata(source: string, author: Option<string>): (m: map<string, string>)
    ensures MetadataValue(m, "source") == Some(source)
    ensures MetadataValue(m, "author") == author
  {
    match author
    case Some(a) => map["source" := source, "author" := a]
    case None => map["source" := source]
  }

  /** `upload_files`: an existing collection is refused with 400 and nothing
      is registered or enqueued; otherwise an upload job for the files,
      metadata and collection is registered and its id joins the queue's
      tail (or the job is "failed" at capacity); no other job changes. */
  function UploadFiles(s: VectorState, files: seq<string>, source: string, author: Option<string>,
                       collection: string, collectionExists: bool, id: string): (r: (VectorState, SubmitResponse))
    ensures collectionExists ==> r == (s, Rejected(400, "Collection already exists."))
    ensures !collectionExists ==>
              && r.1.Accepted? && r.1.uuid == id && id in r.0.reg
              && r.0.reg[id].taskType == "upload" && r.0.reg[id].collection == collection
              && r.0.reg[id].files == Some(files) && r.0.reg[id].query == None
              && r.0.reg[id].metadata == Some(Metadata(source, author))
              && r.0.reg[id].result == None
              && (s.queue.Full() <==> r.1.status == Failed)
              && (!s.queue.Full() ==> r.0.queue.items == s.queue.items + [id])
              && (s.queue.Full() ==> r.0.queue == s.queue)
              && (forall other :: other != id ==> Register.Get(r.0.reg, other) == Register.Get(s.reg, other))
  {
    if collectionExists then (s, Rejected(400, "Collection already exists."))
    else
      Enqueue(s, NewVectorJob(id, files := Some(files), metadata := Some(Metadata(source, author)),
                              collection := collection, taskType := "upload"))
  }

  /** `query_vector_store`: a missing collection is refused with 404 and
      nothing is registered; otherwise a query job is registered and its id
      joins the queue's tail (or the job is "failed" at capacity); no other
      job changes. */
  function QueryVectorStore(s: VectorState, query: string, collection: string,
                            collectionExists: bool, id: string): (r: (VectorState, SubmitResponse))
    ensures !collectionExists ==> r == (s, Rejected(404, "Collection not found."))
    ensures collectionExists ==>
              && r.1.Accepted? && r.1.uuid == id && id in r.0.reg
              && r.0.reg[id].taskType == "query" && r.0.reg[id].collection == collection
              && r.0.reg[id].query == Some(query) && r.0.reg[id].files == None
              && r.0.reg[id].result == None
              && (s.queue.Full() <==> r.1.status == Failed)
              && (!s.queue.Full() ==> r.0.queue.items == s.queue.items + [id])
              && (s.queue.Full() ==> r.0.queue == s.queue)
              && (forall other :: other != id ==> Register.Get(r.0.reg, other) == Register.Get(s.reg, other))
  {
    if !collectionExists then (s, Rejected(404, "Collection not found."))
    else Enqueue(s, NewVectorJob(id, query := Some(query), collection := collection, taskType := "query"))
  }

  /** `get_completion` replies. */
  datatype CompletionResponse =
    | ResultReply(result: Option<VectorResult>, status: Status)
    | ErrorReply(error: string, status: Status)

  /** `get_completion(uuid)`: a query job's result and status; "Unknown job
      type" with the status for any other job (uploads included); "Job not
      found" with status "" for an unknown id. */
  function GetCompletion(s: VectorState, id: string): (r: CompletionResponse)
    ensures r.ResultReply? <==> id in s.reg && s.reg[id].taskType == "query"
    ensures r.ResultReply? ==> r == ResultReply(s.reg[id].result, s.reg[id].status)
    ensures id in s.reg && s.reg[id].taskType != "query" ==> r == ErrorReply("Unknown job type", s.reg[id].status)
    ensures id !in s.reg ==> r == ErrorReply("Job not found", "")
  {
    match Register.Get<string, VectorJob>(s.reg, id)
    case Some(job) =>
      if job.taskType == "query" then ResultReply(job.result, job.status)
      else ErrorReply("Unknown job type", job.status)
    case None => ErrorReply("Job not found", "")
  }

  /** `unregister_job(uuid)`: delete quietly and answer "OK". */
  function Unregister(s: VectorState, id: string): (r: (VectorState, string))
    ensures r.1 == "OK"
    ensures id !in r.0.reg && r.0.queue == s.queue
    ensures forall other :: other != id ==> Register.Get(r.0.reg, other) == Register.Get(s.reg, other)
  {
    (VectorState(Register.DeleteQuietly(s.reg, id), s.queue), "OK")
  }

  /** The service invariant, as for the embedder: a valid bounded queue of
      distinct ids, jobs keyed by their ids, queued jobs still "created". */
  ghost predicate Inv(s: VectorState) {
    && s.queue.Valid()
    && |s.queue.items| <= Capacity
    && Register.KeyedBy(s.reg, GetUuid)
    && (forall i, j :: 0 <= i < j < |s.queue.items| ==> s.queue.items[i] != s.queue.items[j])
    && (forall i :: 0 <= i < |s.queue.items| && s.queue.items[i] in s.reg ==>
          s.reg[s.queue.items[i]].status == Created)
  }

  /** No registered job's status moves backwards, and terminal ones stay. */
  ghost predicate StatusesAdvance(before: map<string, VectorJob>, after: map<string, VectorJob>) {
    forall id :: id in before && id in after ==> NoRegress(before[id].status, after[id].status)
  }

  /** Registering and enqueueing a job with a fresh id keeps the invariant. */
  lemma EnqueueKeepsInv(s: VectorState, job: VectorJob)
    requires Inv(s) && job.status == Created
    requires job.uuid !in s.reg && job.uuid !in s.queue.items
    ensures Inv(Enqueue(s, job).0)
    ensures StatusesAdvance(s.reg, Enqueue(s, job).0.reg)
  {
    var s' := Enqueue(s, job).0;
    if !s.queue.Full() {
      forall i | 0 <= i < |s'.queue.items| && s'.queue.items[i] in s'.reg
        ensures s'.reg[s'.queue.items[i]].status == Created
      {
        if i < |s.queue.items| {
          assert s'.queue.items[i] == s.queue.items[i];
          assert s.queue.items[i] != job.uuid;
        }
      }
    }
  }

  /** Both submit handlers keep the invariant for a fresh id. */
  lemma SubmitsKeepInv(s: VectorState, files: seq<string>, source: string, author: Option<string>,
                       query: string, collection: string, collectionExists: bool, id: string)
    requires Inv(s) && id !in s.reg && id !in s.queue.items
    ensures Inv(UploadFiles(s, files, source, author, collection, collectionExists, id).0)
    ensures Inv(QueryVectorStore(s, query, collection, collectionExists, id).0)
    ensures StatusesAdvance(s.reg, UploadFiles(s, files, source, author, collection, collectionExists, id).0.reg)
    ensures StatusesAdvance(s.reg, QueryVectorStore(s, query, collection, collectionExists, id).0.reg)
  {
    EnqueueKeepsInv(s, NewVectorJob(id, files := Some(files), metadata := Some(Metadata(source, author)),
                                    collection := collection, taskType := "upload"));
    EnqueueKeepsInv(s, NewVectorJob(id, query := Some(query), collection := collection, taskType := "query"));
  }

  /** A worker step keeps the invariant; the job it takes goes from created
      to "completed", or stays "processing" if the worker dies on it. */
  lemma StepKeepsInv(s: VectorState, p: Providers)
    requires Inv(s)
    ensures Inv(StepVector(s, p).state)
    ensures StatusesAdvance(s.reg, StepVector(s, p).state.reg)
  {
    var r := StepVector(s, p);
    if !r.outcome.Idle? {
      var id := s.queue.items[0];
      var s' := r.state;
      forall i | 0 <= i < |s'.queue.items| && s'.queue.items[i] in s'.reg
        ensures s'.reg[s'.queue.items[i]].status == Created
      {
        assert s'.queue.items[i] == s.queue.items[i + 1];
        assert s.queue.items[i + 1] != id;
      }
      forall i, j | 0 <= i < j < |s'.queue.items|
        ensures s'.queue.items[i] != s'.queue.items[j]
      {
        assert s'.queue.items[i] == s.queue.items[i + 1];
        assert s'.queue.items[j] == s.queue.items[j + 1];
      }
      if id in s.reg {
        assert s.reg[id].status == Created;
      }
    }
  }

  /** Unregistering keeps the invariant. */
  lemma UnregisterKeepsInv(s: VectorState, id: string)
    requires Inv(s)
    ensures Inv(Unregister(s, id).0)
    ensures StatusesAdvance(s.reg, Unregister(s, id).0.reg)
  {
  }
}
