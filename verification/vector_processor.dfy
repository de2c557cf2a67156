/** One iteration of the vector service's worker loop (`MainProcessor.run`,
    `process_upload`, `process_query`). The vector store and the embedding
    generator are providers: their answers are parameters, and a store call
    that raises is a flag. The loop has no `try`: a raising provider ends the
    worker thread, leaving the job "processing" and the task not marked done. */
module VectorProcessor {
  import opened Wrappers
  import opened JobStatus
  import EmbedJobs
  import opened VectorJobs
  import opened TaskQueue
  import Register

  type Vector = EmbedJobs.Vector

  /** A point sent to the store (its random point id is left out). */
  datatype Point = Point(vector: Vector, payload: Payload)

  /** The store calls that change or read the store, in the order made. */
  datatype StoreCall =
    | CreateCollection(name: string)
    | Upsert(name: string, points: seq<Point>)
    | Search(name: string, queryVector: Vector, limit: nat)

  /** A search hit as the store returns it. */
  datatype Hit = Hit(id: string, score: real, payload: Payload)

  /** `limit=5` of every search. */
  const SearchLimit: nat := 5

  const UploadMessage: string := "Files uploaded successfully"

  /** What the providers answer during one job: whether `get_collection`
      reports the collection, the vectors generated for the files and for the
      query, the hits of the search, and whether a store call raised. */
  datatype Providers = Providers(
    collectionExists: bool,
    fileVectors: seq<Vector>,
    queryVector: Vector,
    hits: seq<Hit>,
    storeRaises: bool)

  /** `metadata.get(key)`. */
  function MetadataValue(metadata: map<string, string>, key: string): Option<string> {
    if key in metadata then Some(metadata[key]) else None
  }

  /** The points of an upload: `zip(embeddings, files)`, each payload carrying
      the job's source and author and exactly one file's content, in file
      order. */
  function UploadPoints(vectors: seq<Vector>, files: seq<string>, metadata: map<string, string>): (points: seq<Point>)
    ensures |points| == Min(|vectors|, |files|)
    ensures forall i :: 0 <= i < |points| ==>
              points[i].vector == vectors[i] &&
              points[i].payload == Payload(MetadataValue(metadata, "source"), MetadataValue(metadata, "author"), files[i])
    decreases |files|
  {
    if vectors == [] || files == [] then []
    else
      [Point(vectors[0], Payload(MetadataValue(metadata, "source"), MetadataValue(metadata, "author"), files[0]))]
      + UploadPoints(vectors[1..], files[1..], metadata)
  }

  /** The contents carried by a sequence of points, in order. */
  function Contents(points: seq<Point>): (cs: seq<string>)
    ensures |cs| == |points|
    ensures forall i :: 0 <= i < |points| ==> cs[i] == points[i].payload.content
  {
    if points == [] then [] else [points[0].payload.content] + Contents(points[1..])
  }

  /** With one vector per file, the uploaded contents are the files
      themselves, in order, and every point carries the job's source and
      author. */
  lemma UploadCarriesEveryFile(vectors: seq<Vector>, files: seq<string>, metadata: map<string, string>)
    requires |vectors| == |files|
    ensures Contents(UploadPoints(vectors, files, metadata)) == files
    ensures forall p :: p in UploadPoints(vectors, files, metadata) ==>
              p.payload.source == MetadataValue(metadata, "source") &&
              p.payload.author == MetadataValue(metadata, "author")
  {
  }

  /** What a raising provider or a missing job field makes the worker die of. */
  datatype Crash = StoreRaised | MissingFiles | MissingMetadata

  /** The store calls made and the result stored by a handled job. */
  datatype Done = Done(calls: seq<StoreCall>, result: VectorResult)

  /** `process_upload(job)`: create the collection only when `get_collection`
      reports it missing, upsert one point per file, and report the point
      count. Iterating `None` files fails; `None` metadata fails as soon as a
      point is built. */
  function ProcessUpload(job: VectorJob, p: Providers): (r: Result<Done, Crash>)
    ensures r.Success? ==> job.files.Some? && !p.storeRaises
    ensures r.Success? ==>
              var points := UploadPoints(p.fileVectors, job.files.value, job.metadata.GetOr(map[]));
              && r.value.calls == (if p.collectionExists then [] else [CreateCollection(job.collection)])
                                  + [Upsert(job.collection, points)]
              && r.value.result == UploadReport("Files uploaded successfully", |points|)
    ensures job.files.Some? && (job.metadata.Some? || p.fileVectors == [] || job.files.value == []) && !p.storeRaises
            ==> r.Success?
    ensures r.Success? && |p.fileVectors| == |job.files.value| ==> r.value.result == UploadReport(UploadMessage, |job.files.value|)
  {
    var create := if p.collectionExists then [] else [CreateCollection(job.collection)];
    if job.files.None? then Failure(MissingFiles)
    else if job.metadata.None? && p.fileVectors != [] && job.files.value != [] then Failure(MissingMetadata)
    else if p.storeRaises then Failure(StoreRaised)
    else
      var points := UploadPoints(p.fileVectors, job.files.value, job.metadata.GetOr(map[]));
      Success(Done(create + [Upsert(job.collection, points)], UploadReport(UploadMessage, |points|)))
  }

  /** `process_query(job)`'s formatting: each hit becomes `{score, metadata}`,
      one to one and in order. */
  function FormatHits(hits: seq<Hit>): (r: seq<ScoredPayload>)
    ensures |r| == |hits|
    ensures forall i :: 0 <= i < |hits| ==> r[i] == ScoredPayload(hits[i].score, hits[i].payload)
  {
    if hits == [] then [] else [ScoredPayload(hits[0].score, hits[0].payload)] + FormatHits(hits[1..])
  }

  /** `process_query(job)`: one search of the job's collection with the query
      vector and limit 5; the hits, formatted, are the result. The query text
      itself is not used: the query vector is generated without it. */
  function ProcessQuery(job: VectorJob, p: Providers): (r: Result<Done, Crash>)
    ensures r.Success? <==> !p.storeRaises
    ensures r.Success? ==> r.value.calls == [Search(job.collection, p.queryVector, SearchLimit)]
    ensures r.Success? ==> r.value.result == QueryHits(FormatHits(p.hits))
  {
    if p.storeRaises then Failure(StoreRaised)
    else Success(Done([Search(job.collection, p.queryVector, SearchLimit)], QueryHits(FormatHits(p.hits))))
  }

  /** The state a worker step sees and changes. */
  datatype VectorState = VectorState(reg: map<string, VectorJob>, queue: Queue)

  /** What one iteration did: nothing to take, a job handled (with the store
      calls it made), an id without a job passed over, or the thread died
      while handling a job. */
  datatype Outcome = Idle | Processed(id: string, calls: seq<StoreCall>) | Skipped(id: string) | Crashed(id: string, crash: Crash)

  datatype Step = Step(state: VectorState, outcome: Outcome)

  /** Dispatch on `task_type` for a job already marked processing; the loop
      calls neither processor for any other task type. The result is of the
      job's own kind, and only an upload can die of a missing field. */
  function Dispatch(job: VectorJob, p: Providers): (r: Result<Done, Crash>)
    requires job.taskType == "upload" || job.taskType == "query"
    ensures r.Success? && job.taskType == "upload" ==> r.value.result.UploadReport?
    ensures r.Success? && job.taskType == "query" ==> r.value.result.QueryHits?
    ensures r.Failure? && r.error != StoreRaised ==> job.taskType == "upload"
    ensures job.taskType == "query" ==> (r.Success? <==> !p.storeRaises)
  {
    if job.taskType == "upload" then ProcessUpload(job, p) else ProcessQuery(job, p)
  }

  /** One iteration of the loop. A handled job goes processing, then gets its
      result (upload and query only), then "completed" — whatever its task
      type. A crash leaves the job processing and skips `task_done`. */
  function StepVector(s: VectorState, p: Providers): (r: Step)
    requires s.queue.Valid()
    ensures r.outcome.Idle? <==> s.queue.items == []
    ensures r.outcome.Idle? ==> r.state == s
    ensures !r.outcome.Idle? ==> r.outcome.id == s.queue.items[0] && r.state.queue.items == s.queue.items[1..]
    ensures r.outcome.Crashed? ==> r.state.queue.unfinished == s.queue.unfinished
    ensures !r.outcome.Idle? && !r.outcome.Crashed? ==> r.state.queue.unfinished + 1 == s.queue.unfinished
    ensures r.state.queue.Valid()
    ensures r.outcome.Skipped? <==> (!r.outcome.Idle? && r.outcome.id !in s.reg)
    ensures r.outcome.Skipped? ==> r.state.reg == s.reg
    ensures r.outcome.Crashed? ==>
              var id := r.outcome.id;
              id in s.reg && r.state.reg == s.reg[id := s.reg[id].(status := Processing)]
    ensures r.outcome.Processed? ==>
              var id := r.outcome.id;
              var job := s.reg[id];
              && id in r.state.reg
              && r.state.reg == s.reg[id := r.state.reg[id]]
              && r.state.reg[id].status == Completed
              && Inputs(r.state.reg[id]) == Inputs(job)
              && (job.taskType == "upload" || job.taskType == "query" ==>
                    && Dispatch(job.(status := Processing), p).Success?
                    && r.state.reg[id].result == Some(Dispatch(job.(status := Processing), p).value.result)
                    && r.outcome.calls == Dispatch(job.(status := Processing), p).value.calls)
              && (job.taskType != "upload" && job.taskType != "query" ==>
                    r.state.reg[id].result == job.result && r.outcome.calls == [])
  {
    if s.queue.items == [] then Step(s, Idle)
    else
      var (id, taken) := Get(s.queue).value;
      match Register.Get<string, VectorJob>(s.reg, id)
      case None => Step(VectorState(s.reg, TaskDone(taken)), Skipped(id))
      case Some(job) =>
        var started := SetStatus(job, Processing);
        if job.taskType != "upload" && job.taskType != "query" then
          Step(VectorState(s.reg[id := SetStatus(started, Completed)], TaskDone(taken)), Processed(id, []))
        else
          match Dispatch(started, p)
          case Failure(crash) => Step(VectorState(s.reg[id := started], taken), Crashed(id, crash))
          case Success(done) =>
            var finished := SetStatus(SetResult(started, done.result), Completed);
            Step(VectorState(s.reg[id := finished], TaskDone(taken)), Processed(id, done.calls))
  }

  /** A queued query job, with a store that does not raise, is taken off the
      queue, searched once in its own collection with its query vector and
      limit 5, and completed with every hit formatted in the store's order;
      the search is the only store call, and every other job is untouched. */
  lemma QueryJobCompletes(s: VectorState, p: Providers)
    requires s.queue.Valid() && s.queue.items != []
    requires s.queue.items[0] in s.reg && s.reg[s.queue.items[0]].taskType == "query"
    requires !p.storeRaises
    ensures var id := s.queue.items[0];
            var job := s.reg[id];
            var r := StepVector(s, p);
            && r.outcome == Processed(id, [Search(job.collection, p.queryVector, SearchLimit)])
            && r.state.reg == s.reg[id := job.(status := Completed, result := Some(QueryHits(FormatHits(p.hits))))]
            && r.state.queue.items == s.queue.items[1..]
  {
  }
}
