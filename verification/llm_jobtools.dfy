/** The llm service's jobtools: its register holds chat jobs and embedding
    jobs side by side (`Union[ChatJob, EmbedJob]`, assuming the missing
    `Union` import) and swallows a missing id on delete. */
module LlmJobs {
  import opened Wrappers
  import opened ChatJobs
  import opened EmbedJobs
  import Register

  /** A register entry: the job kinds the llm register accepts. */
  datatype LlmJob = ChatTask(chat: ChatJob<string>) | EmbedTask(embed: EmbedJob)

  /** `job.get_uuid()` of either kind. */
  function IdOf(j: LlmJob): string {
    match j
    case ChatTask(c) => c.uuid
    case EmbedTask(e) => e.uuid
  }

  /** `add_job(job)` of either kind stores it under its own id, so the
      register stays keyed by `get_uuid()` whatever mix of jobs it holds. */
  lemma AddKeepsKeyed(reg: map<string, LlmJob>, job: LlmJob)
    requires Register.KeyedBy(reg, IdOf)
    ensures Register.KeyedBy(Register.AddJob(reg, job, IdOf), IdOf)
    ensures Register.Get(Register.AddJob(reg, job, IdOf), IdOf(job)) == Some(job)
  {
  }

  /** `delete_job(id)`: the exception for an absent id is printed, not
      raised, although the docstring promises `KeyError`. */
  function DeleteJob(reg: map<string, LlmJob>, id: string): (r: map<string, LlmJob>)
    ensures Register.Get(r, id) == None
    ensures forall other :: other != id ==> Register.Get(r, other) == Register.Get(reg, other)
    ensures id !in reg ==> r == reg
  {
    Register.DeleteQuietly(reg, id)
  }
}
