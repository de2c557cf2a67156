/** The embedder's request handlers (`embed_job`, `get_status`,
    `get_completion`, `unregister_job`) over the register and queue its
    worker shares, and the invariant they keep together with the worker. */
module EmbedderApp {
  import opened Wrappers
  import opened JobStatus
  import opened EmbedJobs
  import opened TaskQueue
  import opened EmbedderProcessor
  import Register

  /** `{"uuid": ..., "status": ...}` returned by a submit. */
  datatype SubmitResponse = SubmitResponse(uuid: string, status: Status)

  /** `embed_job` as written: register the job, then `taskQueue.put` with its
      default `block=True`. At capacity the put waits for the worker instead
      of raising, so the request does not answer yet. */
  datatype BlockingSubmit = Answered(state: EmbedState, response: SubmitResponse) | Blocked(state: EmbedState)

  function SubmitAsWritten(s: EmbedState, text: string, id: string): (r: BlockingSubmit)
    ensures r.Answered? ==> r.response == SubmitResponse(id, Created)
    ensures r.Blocked? <==> s.queue.Full()
    ensures r.state.reg == Register.AddJob(s.reg, NewEmbedJob(text, id), GetUuid)
  {
    var job := NewEmbedJob(text, id);
    var reg := Register.AddJob(s.reg, job, GetUuid);
    match PutBlocking(s.queue, id)
    case Enqueued(q) => Answered(EmbedState(reg, q), SubmitResponse(id, job.status))
    case Waiting => Blocked(EmbedState(reg, s.queue))
  }

  /** Finding: as written, no submit is ever answered with "failed" — the
      `queue.Full` handler is unreachable. */
  lemma SubmitAsWrittenNeverFails(s: EmbedState, text: string, id: string)
    ensures SubmitAsWritten(s, text, id).Answered? ==> SubmitAsWritten(s, text, id).response.status != Failed
  {
  }

  /** `embed_job(text)` with the non-blocking put its `queue.Full` handler
      expects: the job is registered before the enqueue is tried; a full
      queue leaves the queue as it was and marks the job failed; otherwise the
      id joins the tail and the job stays created. The response echoes the
      id and the job's status. */
  function SubmitEmbed(s: EmbedState, text: string, id: string): (r: (EmbedState, SubmitResponse))
    ensures r.1.uuid == id
    ensures id in r.0.reg && r.0.reg[id].text == text && r.0.reg[id].embedding == None
    ensures r.1.status == r.0.reg[id].status
    ensures forall other :: other != id ==> Register.Get(r.0.reg, other) == Register.Get(s.reg, other)
    ensures s.queue.Full() ==> r.0.queue == s.queue && r.1.status == Failed
    ensures !s.queue.Full() ==> r.0.queue.items == s.queue.items + [id] && r.1.status == Created
  {
    var job := NewEmbedJob(text, id);
    var reg := Register.AddJob(s.reg, job, GetUuid);
    match Put(s.queue, id)
    case Success(q) => (EmbedState(reg, q), SubmitResponse(id, job.status))
    case Failure(_) =>
      var failed := SetStatus(job, Failed);
      (EmbedState(Register.AddJob(reg, failed, GetUuid), s.queue), SubmitResponse(id, failed.status))
  }

  /** `get_completion` replies. */
  datatype CompletionResponse =
    | EmbeddingReply(embedding: Option<Vector>, status: Status)
    | NotFoundReply(error: string, completion: string, emptyEmbedding: string, status: string)

  /** `get_completion(uuid)`: the embedding and status of a registered job;
      otherwise "Job not found" with empty completion, embedding and status.
      (The "Unknown job type" branch needs a register entry that is not an
      embedding job, which the typed register cannot hold.) */
  function GetCompletion(s: EmbedState, id: string): (r: CompletionResponse)
    ensures r.EmbeddingReply? <==> id in s.reg
    ensures r.EmbeddingReply? ==> r.embedding == s.reg[id].embedding && r.status == s.reg[id].status
    ensures r.NotFoundReply? ==> r == NotFoundReply("Job not found", "", "", "")
  {
    match Register.Get<string, EmbedJob>(s.reg, id)
    case Some(job) => EmbeddingReply(job.embedding, job.status)
    case None => NotFoundReply("Job not found", "", "", "")
  }

  /** `{"status": ..., "queue_size": ...}`. */
  datatype StatusReport = StatusReport(status: Status, queueSize: nat)

  /** `get_status` dereferences `get_job`'s result unchecked: an unknown id
      raises `AttributeError` on `None`. */
  datatype NoneDereference = NoneDereference

  function GetStatusAsWritten(s: EmbedState, id: string): (r: Result<StatusReport, NoneDereference>)
    ensures r.Failure? <==> id !in s.reg
    ensures r.Success? ==> r.value == StatusReport(s.reg[id].status, s.queue.Size())
  {
    match Register.Get<string, EmbedJob>(s.reg, id)
    case Some(job) => Success(StatusReport(job.status, s.queue.Size()))
    case None => Failure(NoneDereference)
  }

  /** `get_status` with the not-found reply every other poll gives: status ""
      for an unknown id. */
  function GetStatus(s: EmbedState, id: string): (r: StatusReport)
    ensures r.queueSize == |s.queue.items|
    ensures id in s.reg ==> r.status == s.reg[id].status
    ensures id !in s.reg ==> r.status == ""
    ensures GetStatusAsWritten(s, id).Success? ==> GetStatusAsWritten(s, id).value == r
  {
    match Register.Get<string, EmbedJob>(s.reg, id)
    case Some(job) => StatusReport(job.status, s.queue.Size())
    case None => StatusReport("", s.queue.Size())
  }

  /** Finding: polling the status of an unknown id fails as written and is
      answered as not found by the corrected handler. */
  lemma UnknownStatusPoll(q: Queue, id: string)
    ensures GetStatusAsWritten(EmbedState(map[], q), id).Failure?
    ensures GetStatus(EmbedState(map[], q), id) == StatusReport("", |q.items|)
  {
  }

  /** `unregister_job(uuid)`: delete quietly and answer "OK", known id or not. */
  function Unregister(s: EmbedState, id: string): (r: (EmbedState, string))
    ensures r.1 == "OK"
    ensures id !in r.0.reg && r.0.queue == s.queue
    ensures forall other :: other != id ==> Register.Get(r.0.reg, other) == Register.Get(s.reg, other)
  {
    (EmbedState(Register.DeleteQuietly(s.reg, id), s.queue), "OK")
  }

  /** Unregistering an unknown id changes nothing, and a poll afterwards
      answers not found. */
  lemma UnregisterUnknownIsNoop(s: EmbedState, id: string)
    requires id !in s.reg
    ensures Unregister(s, id) == (s, "OK")
    ensures GetCompletion(Unregister(s, id).0, id).NotFoundReply?
  {
  }

  /** The service invariant: the queue is valid and within capacity, holds no
      id twice, every job is registered under its own id, and every queued id
      that still has a job names a job not yet taken up ("created"). */
  ghost predicate Inv(s: EmbedState) {
    && s.queue.Valid()
    && |s.queue.items| <= Capacity
    && Register.KeyedBy(s.reg, GetUuid)
    && (forall i, j :: 0 <= i < j < |s.queue.items| ==> s.queue.items[i] != s.queue.items[j])
    && (forall i :: 0 <= i < |s.queue.items| && s.queue.items[i] in s.reg ==>
          s.reg[s.queue.items[i]].status == Created)
  }

  /** No registered job's status moves backwards, and terminal ones stay. */
  ghost predicate StatusesAdvance(before: map<string, EmbedJob>, after: map<string, EmbedJob>) {
    forall id :: id in before && id in after ==> NoRegress(before[id].status, after[id].status)
  }

  lemma InitialInv()
    ensures Inv(EmbedState(map[], Empty))
  {
  }

  /** A submit with a fresh id keeps the invariant and changes no other job. */
  lemma SubmitKeepsInv(s: EmbedState, text: string, id: string)
    requires Inv(s)
    requires id !in s.reg && id !in s.queue.items
    ensures Inv(SubmitEmbed(s, text, id).0)
    ensures StatusesAdvance(s.reg, SubmitEmbed(s, text, id).0.reg)
  {
    var s' := SubmitEmbed(s, text, id).0;
    if !s.queue.Full() {
      assert s'.queue.items == s.queue.items + [id];
      forall i | 0 <= i < |s'.queue.items| && s'.queue.items[i] in s'.reg
        ensures s'.reg[s'.queue.items[i]].status == Created
      {
        if i < |s.queue.items| {
          assert s'.queue.items[i] == s.queue.items[i];
          assert s.queue.items[i] != id;
        }
      }
    }
  }

  /** A worker step keeps the invariant; the job it takes goes from created to
      finished, every other job is untouched. */
  lemma StepKeepsInv(s: EmbedState, provider: EmbedProvider)
    requires Inv(s)
    ensures Inv(StepEmbed(s, provider).state)
    ensures StatusesAdvance(s.reg, StepEmbed(s, provider).state.reg)
  {
    var r := StepEmbed(s, provider);
    if !r.outcome.Idle? {
      var id := s.queue.items[0];
      var s' := r.state;
      forall i | 0 <= i < |s'.queue.items| && s'.queue.items[i] in s'.reg
        ensures s'.reg[s'.queue.items[i]].status == Created
      {
        assert s'.queue.items[i] == s.queue.items[i + 1];
        assert s.queue.items[i + 1] != id;
      }
      forall i, j | 0 <= i < j < |s'.queue.items|
        ensures s'.queue.items[i] != s'.queue.items[j]
      {
        assert s'.queue.items[i] == s.queue.items[i + 1];
        assert s'.queue.items[j] == s.queue.items[j + 1];
      }
      if r.outcome.Processed? {
        assert s.reg[id].status == Created;
      }
    }
  }

  /** Unregistering keeps the invariant and changes no remaining job. */
  lemma UnregisterKeepsInv(s: EmbedState, id: string)
    requires Inv(s)
    ensures Inv(Unregister(s, id).0)
    ensures StatusesAdvance(s.reg, Unregister(s, id).0.reg)
  {
  }

  /** Submitting at capacity answers "failed" at once and leaves the queue
      depth as it was. */
  lemma SubmitAtCapacityFails(s: EmbedState, text: string, id: string)
    requires |s.queue.items| == Capacity
    ensures SubmitEmbed(s, text, id).1 == SubmitResponse(id, Failed)
    ensures SubmitEmbed(s, text, id).0.queue.Size() == s.queue.Size()
    ensures GetCompletion(SubmitEmbed(s, text, id).0, id) == EmbeddingReply(None, Failed)
  {
  }
}
