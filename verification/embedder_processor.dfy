/** One iteration of the embedder's worker loop (`MainProcessor.run` and
    `process_embed_job`): take an id off the queue, look it up, and for an
    embedding job set processing, ask the provider for the vector (storing
    `None` if it raises), set finished; an id without a job is passed over.
    `task_done` follows in a `finally`. */
module EmbedderProcessor {
  import opened Wrappers
  import opened JobStatus
  import opened EmbedJobs
  import opened TaskQueue
  import Register

  /** The embedding provider: the vector for a text, or `None` when it raises. */
  type EmbedProvider = string -> Option<Vector>

  /** The job after each write of `process_embed_job`: processing, then the
      embedding (the provider's vector, or `None` when it raised), then
      finished; the job is never marked failed and the text never changes. */
  function ProcessEmbedJob(job: EmbedJob, provider: EmbedProvider): (trace: seq<EmbedJob>)
    ensures |trace| == 3
    ensures trace[0].status == Processing && trace[1].status == Processing
    ensures trace[0].embedding == job.embedding
    ensures trace[1].embedding == provider(job.text) && trace[2].embedding == provider(job.text)
    ensures trace[2].status == Finished
    ensures forall k :: 0 <= k < 3 ==> trace[k].text == job.text && trace[k].uuid == job.uuid
  {
    var started := SetStatus(job, Processing);
    var embedded := SetEmbedding(started, provider(job.text));
    [started, embedded, SetStatus(embedded, Finished)]
  }

  /** The state a worker step sees and changes. */
  datatype EmbedState = EmbedState(reg: map<string, EmbedJob>, queue: Queue)

  /** What one iteration did: nothing to take, a job embedded, or an id
      passed over ("Unknown job type"). */
  datatype Outcome = Idle | Processed(id: string) | Skipped(id: string)

  datatype Step = Step(state: EmbedState, outcome: Outcome)

  /** One iteration of the loop. */
  function StepEmbed(s: EmbedState, provider: EmbedProvider): (r: Step)
    requires s.queue.Valid()
    ensures r.outcome.Idle? <==> s.queue.items == []
    ensures r.outcome.Idle? ==> r.state == s
    ensures !r.outcome.Idle? ==> r.outcome.id == s.queue.items[0]
    ensures !r.outcome.Idle? ==> r.state.queue.items == s.queue.items[1..]
    ensures !r.outcome.Idle? ==> r.state.queue.unfinished + 1 == s.queue.unfinished
    ensures r.state.queue.Valid()
    ensures r.outcome.Skipped? <==> (!r.outcome.Idle? && r.outcome.id !in s.reg)
    ensures r.outcome.Skipped? ==> r.state.reg == s.reg
    ensures r.outcome.Processed? ==>
              var id := r.outcome.id;
              var job := s.reg[id];
              r.state.reg == s.reg[id := EmbedJob(job.text, job.uuid, Finished, provider(job.text))]
  {
    if s.queue.items == [] then Step(s, Idle)
    else
      var (id, taken) := Get(s.queue).value;
      var q := TaskDone(taken);
      match Register.Get<string, EmbedJob>(s.reg, id)
      case Some(job) =>
        var trace := ProcessEmbedJob(job, provider);
        Step(EmbedState(s.reg[id := trace[2]], q), Processed(id))
      case None => Step(EmbedState(s.reg, q), Skipped(id))
  }

  /** A provider that raises leaves the job finished with no embedding, never
      failed. */
  lemma ProviderFailureStillFinishes(job: EmbedJob, provider: EmbedProvider)
    requires provider(job.text).None?
    ensures ProcessEmbedJob(job, provider)[2].status == Finished
    ensures ProcessEmbedJob(job, provider)[2].embedding == None
  {
  }
}
