/** `EmbedJob`, identical in the llm and embedder jobtools: the text to embed,
    an optional embedding and a status. Floating-point vectors are modelled as
    sequences of reals; nothing here computes with them. */
module EmbedJobs {
  import opened Wrappers
  import opened JobStatus

  type Vector = seq<real>

  datatype EmbedJob = EmbedJob(text: string, uuid: string, status: Status, embedding: Option<Vector>)

  /** The constructor; `uuid` stands for the fresh `uuid4().hex`. */
  function NewEmbedJob(text: string, uuid: string): (j: EmbedJob)
    ensures j.text == text && j.uuid == uuid
    ensures j.status == Created && j.embedding == None
  {
    EmbedJob(text, uuid, Created, None)
  }

  /** `get_uuid()`, the key the register stores the job under. */
  function GetUuid(j: EmbedJob): string {
    j.uuid
  }

  /** `set_embedding(e)`; the worker also passes `None`. */
  function SetEmbedding(j: EmbedJob, e: Option<Vector>): (r: EmbedJob)
    ensures r.embedding == e
    ensures r.text == j.text && r.uuid == j.uuid && r.status == j.status
  {
    j.(embedding := e)
  }

  /** `set_status(s)`: overwrites the status only. */
  function SetStatus(j: EmbedJob, s: Status): (r: EmbedJob)
    ensures r.status == s
    ensures r.text == j.text && r.uuid == j.uuid && r.embedding == j.embedding
  {
    j.(status := s)
  }

  /** `get_embedding()` after `set_embedding(e)` returns `e`, `None`
      included, and the text is untouched. */
  lemma SetThenGetEmbedding(j: EmbedJob, e: Option<Vector>)
    ensures SetEmbedding(j, e).embedding == e
    ensures SetEmbedding(j, e).text == j.text
    ensures SetEmbedding(SetEmbedding(j, e), e) == SetEmbedding(j, e)
  {
  }
}
